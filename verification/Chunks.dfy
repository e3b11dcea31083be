/**
  Moving a file's bytes: the sender cuts them into sealed chunks, the receiver checks size, seal, total
  and digest before it accepts anything. Seals and digests are ideal: they open or match only for what
  they were made from.
*/
module Chunks {
  import opened Records
  import opened Aad

  type Byte = b: int | 0 <= b < 256

  const CHUNK_SIZE: nat := 0x40_0000
  const NONCE_SIZE: nat := 24
  const TAG_SIZE: nat := 16

  /** A format version byte, the nonce, and the ciphertext with its tag. */
  datatype Blob = Sealed(key: string, aad: string, nonce: seq<Byte>, plain: seq<Byte>)
  datatype BlobId = BlobId(of: Blob)
  datatype FileDigest = Sha256(of: seq<Byte>)

  datatype ChunkRef = ChunkRef(id: BlobId, size: int)
  datatype Payload = Payload(size: int, digest: FileDigest, chunks: seq<ChunkRef>)

  /** Where a file lives; together with position and size this is what a chunk's seal is bound to. */
  datatype Place = Place(ws: string, root: string, path: string)

  predicate PlainPlace(p: Place) {
    NulFree(p.ws) && NulFree(p.root) && NulFree(p.path)
  }

  function EncryptedSize(n: nat): nat {
    n + 1 + NONCE_SIZE + TAG_SIZE
  }

  function BlobSize(b: Blob): nat {
    1 + |b.nonce| + |b.plain| + TAG_SIZE
  }

  /** The cap for a chunk of n bytes admits exactly the blobs that hold at most n bytes. */
  lemma CapAdmitsExactly(b: Blob, n: nat)
    requires |b.nonce| == NONCE_SIZE
    ensures BlobSize(b) <= EncryptedSize(n) <==> |b.plain| <= n
    ensures BlobSize(b) == EncryptedSize(|b.plain|)
  {}

  function Opened(b: Blob, key: string, aad: string): Option<seq<Byte>> {
    if b.key == key && b.aad == aad then Some(b.plain) else None
  }

  function Joined(blobs: seq<Blob>): seq<Byte> {
    if blobs == [] then [] else Joined(blobs[..|blobs| - 1]) + blobs[|blobs| - 1].plain
  }

  /** What an upload leaves behind: full chunks but for the last, each sealed for its place and position. */
  ghost predicate Uploaded(file: seq<Byte>, key: string, place: Place, payload: Payload, blobs: seq<Blob>) {
    && |payload.chunks| == |blobs|
    && Joined(blobs) == file
    && payload.size == |file| && payload.digest == Sha256(file)
    && (forall i | 0 <= i < |blobs| :: IsChunk(blobs[i], key, place, i, payload.chunks[i]))
    && (forall i | 0 <= i < |blobs| - 1 :: |blobs[i].plain| == CHUNK_SIZE)
  }

  ghost predicate IsChunk(b: Blob, key: string, place: Place, i: nat, ref: ChunkRef) {
    && b.key == key && |b.nonce| == NONCE_SIZE && 1 <= |b.plain| <= CHUNK_SIZE
    && b.aad == BlobAad(place.ws, place.root, place.path, i, |b.plain|)
    && ref == ChunkRef(BlobId(b), |b.plain|)
  }

  lemma JoinedSnoc(blobs: seq<Blob>, b: Blob)
    ensures Joined(blobs + [b]) == Joined(blobs) + b.plain
  {
    assert (blobs + [b])[..|blobs|] == blobs;
  }

  method RandomNonce() returns (nonce: seq<Byte>)
    ensures |nonce| == NONCE_SIZE
  {
    nonce :| |nonce| == NONCE_SIZE by { assert |seq(NONCE_SIZE, i => 0 as Byte)| == NONCE_SIZE; }
  }

  /** The read loop: full reads until one comes back short or empty. */
  method UploadFile(file: seq<Byte>, key: string, place: Place)
    returns (payload: Payload, refs: seq<BlobId>, blobs: seq<Blob>)
    ensures Uploaded(file, key, place, payload, blobs)
    ensures |refs| == |blobs| && forall i | 0 <= i < |refs| :: refs[i] == BlobId(blobs[i])
    ensures |blobs| == (|file| + CHUNK_SIZE - 1) / CHUNK_SIZE
  {
    hide BlobAad;
    var offset, total := 0, 0;
    var chunks: seq<ChunkRef> := [];
    refs, blobs := [], [];
    var more := true;
    while more
      invariant offset == |chunks| == |refs| == |blobs| && 0 <= total <= |file|
      invariant more ==> total == offset * CHUNK_SIZE && forall i | 0 <= i < offset :: |blobs[i].plain| == CHUNK_SIZE
      invariant !more ==> total == |file| && offset == (|file| + CHUNK_SIZE - 1) / CHUNK_SIZE
                          && forall i | 0 <= i < offset - 1 :: |blobs[i].plain| == CHUNK_SIZE
      invariant Joined(blobs) == file[..total]
      invariant forall i | 0 <= i < offset :: IsChunk(blobs[i], key, place, i, chunks[i])
      invariant forall i | 0 <= i < offset :: refs[i] == BlobId(blobs[i])
      decreases more, |file| - total
    {
      var n := if |file| - total < CHUNK_SIZE then |file| - total else CHUNK_SIZE;
      if n == 0 {
        more := false;
      } else {
        var buf := file[total..total + n];
        var nonce := RandomNonce();
        var blob := Sealed(key, BlobAad(place.ws, place.root, place.path, offset, n), nonce, buf);
        JoinedSnoc(blobs, blob);
        assert file[..total + n] == file[..total] + buf;
        chunks, refs, blobs := chunks + [ChunkRef(BlobId(blob), n)], refs + [BlobId(blob)], blobs + [blob];
        total, offset := total + n, offset + 1;
        if n < CHUNK_SIZE {
          more := false;
        }
      }
    }
    assert file[..|file|] == file;
    payload := Payload(total, Sha256(file), chunks);
  }

  // ---- the receiver

  /** One chunk as the receiver takes it from a server it does not trust. */
  function Received(ref: ChunkRef, i: nat, server: map<BlobId, Blob>, key: string, place: Place): Option<seq<Byte>> {
    if ref.size <= 0 || ref.size > CHUNK_SIZE then None
    else if ref.id !in server then None
    else if BlobSize(server[ref.id]) > EncryptedSize(ref.size) then None
    else
      var plain := Opened(server[ref.id], key, BlobAad(place.ws, place.root, place.path, i, ref.size));
      if plain.Some? && |plain.value| == ref.size then plain else None
  }

  function ReceivedUpTo(chunks: seq<ChunkRef>, n: nat, server: map<BlobId, Blob>, key: string,
                        place: Place): Option<seq<Byte>>
    requires n <= |chunks|
  {
    if n == 0 then Some([])
    else
      var front := ReceivedUpTo(chunks, n - 1, server, key, place);
      var last := Received(chunks[n - 1], n - 1, server, key, place);
      if front.Some? && last.Some? then Some(front.value + last.value) else None
  }

  /** Size and digest are checked over the whole file before it replaces anything. */
  function ReceivedFile(p: Payload, server: map<BlobId, Blob>, key: string, place: Place): Option<seq<Byte>> {
    var bytes := ReceivedUpTo(p.chunks, |p.chunks|, server, key, place);
    if bytes.Some? && |bytes.value| == p.size && Sha256(bytes.value) == p.digest then bytes else None
  }

  method DownloadFile(p: Payload, server: map<BlobId, Blob>, key: string, place: Place) returns (r: Option<seq<Byte>>)
    ensures r == ReceivedFile(p, server, key, place)
  {
    hide BlobAad;
    var bytes: seq<Byte>, total := [], 0;
    var i := 0;
    while i < |p.chunks|
      invariant 0 <= i <= |p.chunks| && total == |bytes|
      invariant ReceivedUpTo(p.chunks, i, server, key, place) == Some(bytes)
    {
      var ref := p.chunks[i];
      if ref.size <= 0 || ref.size > CHUNK_SIZE || ref.id !in server
          || BlobSize(server[ref.id]) > EncryptedSize(ref.size) {
        NothingAfter(p.chunks, i, |p.chunks|, server, key, place);
        return None;
      }
      var plain := Opened(server[ref.id], key, BlobAad(place.ws, place.root, place.path, i, ref.size));
      if plain.None? || |plain.value| != ref.size {
        NothingAfter(p.chunks, i, |p.chunks|, server, key, place);
        return None;
      }
      bytes, total := bytes + plain.value, total + |plain.value|;
      i := i + 1;
    }
    if total != p.size || Sha256(bytes) != p.digest {
      return None;
    }
    return Some(bytes);
  }

  lemma {:induction false} NothingAfter(chunks: seq<ChunkRef>, i: nat, n: nat, server: map<BlobId, Blob>, key: string,
          place: Place)
    requires i < n <= |chunks| && Received(chunks[i], i, server, key, place).None?
    ensures ReceivedUpTo(chunks, n, server, key, place).None?
    decreases n
  {
    hide Received;
    if i < n - 1 {
      NothingAfter(chunks, i, n - 1, server, key, place);
    }
  }

  /** A chunk of the stated size whose blob is there, fits that size, and was sealed for this place and position. */
  predicate IsTakenAs(ref: ChunkRef, i: nat, server: map<BlobId, Blob>, key: string, place: Place) {
    && 1 <= ref.size <= CHUNK_SIZE && ref.id in server
    && var b := server[ref.id];
       && 1 + |b.nonce| + |b.plain| + TAG_SIZE <= ref.size + 1 + NONCE_SIZE + TAG_SIZE
       && b.key == key && b.aad == BlobAad(place.ws, place.root, place.path, i, ref.size) && |b.plain| == ref.size
  }

  /** The bytes of the first n chunks, wherever they are there. */
  function PlainsOf(chunks: seq<ChunkRef>, n: nat, server: map<BlobId, Blob>): seq<Byte>
    requires n <= |chunks|
  {
    if n == 0 then []
    else PlainsOf(chunks, n - 1, server)
         + if chunks[n - 1].id in server then server[chunks[n - 1].id].plain else []
  }

  lemma {:induction false} ReceivedIff(chunks: seq<ChunkRef>, n: nat, server: map<BlobId, Blob>, key: string,
                                       place: Place)
    requires n <= |chunks|
    ensures ReceivedUpTo(chunks, n, server, key, place).Some? <==>
              forall i | 0 <= i < n :: IsTakenAs(chunks[i], i, server, key, place)
    ensures ReceivedUpTo(chunks, n, server, key, place).Some? ==>
              ReceivedUpTo(chunks, n, server, key, place).value == PlainsOf(chunks, n, server)
    decreases n
  {
    hide BlobAad;
    if n > 0 {
      ReceivedIff(chunks, n - 1, server, key, place);
    }
  }

  /**
    A download is accepted if and only if every chunk is taken as what the payload says it is, and all of them
    together have the payload's size and digest; what is accepted then are their bytes.
  */
  lemma AcceptedIff(p: Payload, server: map<BlobId, Blob>, key: string, place: Place)
    ensures var bytes := PlainsOf(p.chunks, |p.chunks|, server);
            ReceivedFile(p, server, key, place) ==
            if (forall i | 0 <= i < |p.chunks| :: IsTakenAs(p.chunks[i], i, server, key, place))
               && |bytes| == p.size && Sha256(bytes) == p.digest
            then Some(bytes) else None
  {
    hide IsTakenAs;
    ReceivedIff(p.chunks, |p.chunks|, server, key, place);
  }

  ghost predicate Holds(server: map<BlobId, Blob>, blobs: seq<Blob>) {
    forall b | b in blobs :: BlobId(b) in server && server[BlobId(b)] == b
  }

  lemma {:induction false} ReceivesPrefix(file: seq<Byte>, key: string, place: Place, p: Payload, blobs: seq<Blob>,
          server: map<BlobId, Blob>, n: nat)
    requires Uploaded(file, key, place, p, blobs) && Holds(server, blobs) && n <= |blobs|
    ensures ReceivedUpTo(p.chunks, n, server, key, place) == Some(Joined(blobs[..n]))
    decreases n
  {
    hide BlobAad, Joined;
    if n == 0 {
      assert blobs[..0] == [];
      assert Joined([]) == [] by { JoinedNone(); }
    } else {
      ReceivesPrefix(file, key, place, p, blobs, server, n - 1);
      var b := blobs[n - 1];
      assert b in blobs && IsChunk(b, key, place, n - 1, p.chunks[n - 1]);
      assert blobs[..n] == blobs[..n - 1] + [b];
      JoinedSnoc(blobs[..n - 1], b);
      CapAdmitsExactly(b, |b.plain|);
    }
  }

  lemma JoinedNone()
    ensures Joined([]) == []
  {}

  /** Round trip: a server that holds the chunks gives back exactly the file, of any length. */
  lemma RoundTrip(file: seq<Byte>, key: string, place: Place, p: Payload, blobs: seq<Blob>, server: map<BlobId, Blob>)
    requires Uploaded(file, key, place, p, blobs) && Holds(server, blobs)
    ensures ReceivedFile(p, server, key, place) == Some(file)
  {
    hide ReceivedUpTo, Joined;
    ReceivesPrefix(file, key, place, p, blobs, server, |blobs|);
    assert blobs[..|blobs|] == blobs;
  }

  /** Whatever a server answers: what is accepted for an uploaded payload is the uploaded file. */
  lemma NothingElseIsAccepted(file: seq<Byte>, key: string, place: Place, p: Payload, blobs: seq<Blob>,
                              server: map<BlobId, Blob>)
    requires Uploaded(file, key, place, p, blobs)
    ensures ReceivedFile(p, server, key, place) in {None, Some(file)}
  {
    hide ReceivedUpTo, Joined;
  }

  /** A chunk that opens at one place, position and size opens nowhere else: no splicing between files. */
  lemma ChunksCannotBeSpliced(ref: ChunkRef, i: nat, place: Place, other: ChunkRef, j: nat, elsewhere: Place,
                              server: map<BlobId, Blob>, key: string)
    requires PlainPlace(place) && PlainPlace(elsewhere) && ref.id == other.id
    requires Received(ref, i, server, key, place).Some? && Received(other, j, server, key, elsewhere).Some?
    ensures place == elsewhere && i == j && ref == other
  {
    hide BlobAad;
    BlobAadIsInjective(place.ws, place.root, place.path, i, ref.size, elsewhere.ws, elsewhere.root, elsewhere.path, j,
        other.size);
  }
}
