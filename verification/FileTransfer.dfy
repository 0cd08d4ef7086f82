/**
 Sending a file as hashed chunks and reassembling it. Chunks are files in a local directory, named
 by file identifier and index; chunk responses from peers overwrite them without any check, and the
 check happens when the file is saved.
*/
module FileTransfer {
  import opened Common
  import opened Decimal

  type Bytes = seq<bv8>
  type Hash = Bytes -> string
  type ChunkStore = map<string, Bytes>

  const CHUNK_SIZE := 512 * 1024
  const MAX_FILE_SIZE := 10 * 1024 * 1024

  datatype ChunkMeta = ChunkMeta(index: int, hash: string)

  datatype Manifest = Manifest(fileID: string, name: string, size: int, chunks: seq<ChunkMeta>, senderID: string)

  /** The name of a chunk's file; a response supplies the index as text. */
  function ChunkPath(fileID: string, index: string): string {
    fileID + "_" + index + ".dat"
  }

  function PathOf(fileID: string, index: int): string {
    ChunkPath(fileID, IntText(index))
  }

  lemma PathInjective(fileID: string, i: int, j: int)
    requires PathOf(fileID, i) == PathOf(fileID, j)
    ensures i == j
  {
    var p, q := PathOf(fileID, i), PathOf(fileID, j);
    assert p[|fileID| + 1..|p| - 4] == IntText(i);
    assert q[|fileID| + 1..|q| - 4] == IntText(j);
    IntRoundTrip(i);
    IntRoundTrip(j);
  }

  // ---------------------------------------------------------------------------------------
  // Splitting
  // ---------------------------------------------------------------------------------------

  function Flatten(pieces: seq<Bytes>): Bytes {
    if pieces == [] then [] else Flatten(pieces[..|pieces| - 1]) + pieces[|pieces| - 1]
  }

  /** The pieces a sequence of reads can return: none empty, none longer than the buffer. */
  ghost predicate AreReads(pieces: seq<Bytes>) {
    forall i :: 0 <= i < |pieces| ==> 0 < |pieces[i]| <= CHUNK_SIZE
  }

  /** The chunk list of a manifest describes the pieces: consecutive indices and their hashes. */
  ghost predicate Describes(chunks: seq<ChunkMeta>, pieces: seq<Bytes>, hash: Hash) {
    |chunks| == |pieces| && forall i :: 0 <= i < |chunks| ==> chunks[i] == ChunkMeta(i, hash(pieces[i]))
  }

  /** The store holds the pieces under their chunk names. */
  ghost predicate Holds(store: ChunkStore, fileID: string, pieces: seq<Bytes>) {
    forall i :: 0 <= i < |pieces| ==> PathOf(fileID, i) in store && store[PathOf(fileID, i)] == pieces[i]
  }

  ghost predicate SentAs(m: Manifest, store: ChunkStore, hash: Hash, file: Bytes, pieces: seq<Bytes>) {
    && AreReads(pieces) && Flatten(pieces) == file
    && Describes(m.chunks, pieces, hash) && Holds(store, m.fileID, pieces)
  }

  // ---------------------------------------------------------------------------------------
  // Reassembling
  // ---------------------------------------------------------------------------------------

  predicate ChunkGood(store: ChunkStore, hash: Hash, fileID: string, chunk: ChunkMeta) {
    PathOf(fileID, chunk.index) in store && hash(store[PathOf(fileID, chunk.index)]) == chunk.hash
  }

  /** What is written, and whether every chunk was there with its hash; writing stops at the first bad one. */
  function Assemble(store: ChunkStore, hash: Hash, fileID: string, chunks: seq<ChunkMeta>): (Bytes, bool) {
    if chunks == [] then ([], true)
    else
      var (written, ok) := Assemble(store, hash, fileID, chunks[..|chunks| - 1]);
      var chunk := chunks[|chunks| - 1];
      if ok && ChunkGood(store, hash, fileID, chunk) then (written + store[PathOf(fileID, chunk.index)], true)
      else (written, false)
  }

  ghost predicate AllGood(store: ChunkStore, hash: Hash, fileID: string, chunks: seq<ChunkMeta>) {
    forall i :: 0 <= i < |chunks| ==> ChunkGood(store, hash, fileID, chunks[i])
  }

  lemma AllGoodSplits(store: ChunkStore, hash: Hash, fileID: string, chunks: seq<ChunkMeta>, n: nat)
    requires |chunks| == n + 1
    ensures AllGood(store, hash, fileID, chunks) <==>
            AllGood(store, hash, fileID, chunks[..n]) && ChunkGood(store, hash, fileID, chunks[n])
  {
    forall i | 0 <= i < n ensures chunks[..n][i] == chunks[i] { }
    if AllGood(store, hash, fileID, chunks[..n]) && ChunkGood(store, hash, fileID, chunks[n]) {
      forall i | 0 <= i < |chunks| ensures ChunkGood(store, hash, fileID, chunks[i]) {
        assert i < n ==> ChunkGood(store, hash, fileID, chunks[..n][i]);
      }
    }
  }

  /** Saving succeeds exactly when every chunk is present with its hash. */
  lemma {:induction false} SaveSucceedsExactly(store: ChunkStore, hash: Hash, fileID: string, chunks: seq<ChunkMeta>)
    ensures Assemble(store, hash, fileID, chunks).1 <==> AllGood(store, hash, fileID, chunks)
  {
    if chunks != [] {
      var n := |chunks| - 1;
      SaveSucceedsExactly(store, hash, fileID, chunks[..n]);
      AllGoodSplits(store, hash, fileID, chunks, n);
    }
  }

  /** No other data has the hash of one of these pieces. */
  ghost predicate CollisionFree(hash: Hash, pieces: seq<Bytes>) {
    forall i, data :: 0 <= i < |pieces| && hash(data) == hash(pieces[i]) ==> data == pieces[i]
  }

  lemma {:induction false} SavedIsPrefix(store: ChunkStore, hash: Hash, fileID: string, chunks: seq<ChunkMeta>, pieces: seq<Bytes>)
    requires Describes(chunks, pieces, hash) && CollisionFree(hash, pieces)
    ensures var (written, ok) := Assemble(store, hash, fileID, chunks);
            written <= Flatten(pieces) && (ok ==> written == Flatten(pieces))
  {
    if chunks != [] {
      var n := |chunks| - 1;
      SavedIsPrefix(store, hash, fileID, chunks[..n], pieces[..n]);
      if ChunkGood(store, hash, fileID, chunks[n]) {
        assert store[PathOf(fileID, n)] == pieces[n];
      }
    }
  }

  /** Chunk responses: each overwrites whatever file its own text names. */
  datatype Response = Response(fileID: string, index: string, data: Bytes)

  function Overwrite(store: ChunkStore, responses: seq<Response>): ChunkStore {
    if responses == [] then store
    else
      var r := responses[|responses| - 1];
      Overwrite(store, responses[..|responses| - 1])[ChunkPath(r.fileID, r.index) := r.data]
  }

  /** The intact case: what was stored by sending is what saving writes. */
  lemma RoundTrip(m: Manifest, store: ChunkStore, hash: Hash, file: Bytes, pieces: seq<Bytes>)
    requires SentAs(m, store, hash, file, pieces)
    ensures Assemble(store, hash, m.fileID, m.chunks) == (file, true)
  {
    RoundTripPrefix(m, store, hash, pieces, |pieces|);
    assert m.chunks[..|pieces|] == m.chunks && pieces[..|pieces|] == pieces;
  }

  lemma {:induction false} RoundTripPrefix(m: Manifest, store: ChunkStore, hash: Hash, pieces: seq<Bytes>, k: nat)
    requires Describes(m.chunks, pieces, hash) && Holds(store, m.fileID, pieces) && k <= |pieces|
    ensures Assemble(store, hash, m.fileID, m.chunks[..k]) == (Flatten(pieces[..k]), true)
  {
    if k > 0 {
      RoundTripPrefix(m, store, hash, pieces, k - 1);
      assert m.chunks[..k][..k - 1] == m.chunks[..k - 1] && pieces[..k][..k - 1] == pieces[..k - 1];
      assert store[PathOf(m.fileID, k - 1)] == pieces[k - 1];
    }
  }

  /**
   After sending, whatever chunk responses overwrite the store: saving writes a prefix of the original
   file, if it succeeds it writes exactly the file, and it succeeds exactly when every chunk's file
   again holds the original piece.
  */
  lemma NeverWrongBytes(m: Manifest, store: ChunkStore, hash: Hash, file: Bytes, pieces: seq<Bytes>, responses: seq<Response>)
    requires SentAs(m, store, hash, file, pieces) && CollisionFree(hash, pieces)
    ensures var now := Overwrite(store, responses);
            var (written, ok) := Assemble(now, hash, m.fileID, m.chunks);
            && written <= file
            && (ok ==> written == file)
            && (ok <==> Holds(now, m.fileID, pieces))
  {
    var now := Overwrite(store, responses);
    SavedIsPrefix(now, hash, m.fileID, m.chunks, pieces);
    SaveSucceedsExactly(now, hash, m.fileID, m.chunks);
    forall i | 0 <= i < |pieces|
      ensures ChunkGood(now, hash, m.fileID, m.chunks[i]) <==>
              PathOf(m.fileID, i) in now && now[PathOf(m.fileID, i)] == pieces[i]
    {
      assert m.chunks[i] == ChunkMeta(i, hash(pieces[i]));
    }
  }

  /** Response `k` is the last that names the chunk's file, and it carries the piece. */
  ghost predicate LastAt(responses: seq<Response>, k: nat, path: string, piece: Bytes) {
    && k < |responses| && Carries(responses[k], path, piece)
    && forall l :: k < l < |responses| ==> !Names(responses[l], path)
  }

  ghost predicate Arrived(responses: seq<Response>, path: string, piece: Bytes) {
    exists k: nat :: LastAt(responses, k, path, piece)
  }

  predicate Names(r: Response, path: string) {
    ChunkPath(r.fileID, r.index) == path
  }

  predicate Carries(r: Response, path: string, piece: Bytes) {
    Names(r, path) && r.data == piece
  }

  /** What a response leaves under a chunk's name: the last data that arrived for it. */
  lemma {:induction false} LastArrives(store: ChunkStore, responses: seq<Response>, path: string, piece: Bytes)
    requires Arrived(responses, path, piece)
    ensures path in Overwrite(store, responses) && Overwrite(store, responses)[path] == piece
  {
    var k: nat :| LastAt(responses, k, path, piece);
    var last := |responses| - 1;
    if k < last {
      assert !Names(responses[last], path);
      assert LastAt(responses[..last], k, path, piece) by {
        forall l | k < l < last ensures !Names(responses[..last][l], path) {
          assert responses[..last][l] == responses[l];
        }
      }
      LastArrives(store, responses[..last], path, piece);
    }
  }

  lemma {:induction false} UnnamedStays(store: ChunkStore, responses: seq<Response>, path: string)
    requires forall l :: 0 <= l < |responses| ==> !Names(responses[l], path)
    ensures path in Overwrite(store, responses) <==> path in store
    ensures path in store ==> Overwrite(store, responses)[path] == store[path]
  {
    if responses != [] {
      UnnamedStays(store, responses[..|responses| - 1], path);
      assert !Names(responses[|responses| - 1], path);
    }
  }

  /**
   Receiving: when for every piece the last response that names its chunk carries it, in whatever order
   and among whatever other responses, saving from any store, the empty one included, writes the file.
  */
  lemma ArrivedIsSaved(m: Manifest, store: ChunkStore, hash: Hash, pieces: seq<Bytes>, responses: seq<Response>)
    requires Describes(m.chunks, pieces, hash)
    requires forall i :: 0 <= i < |pieces| ==> Arrived(responses, PathOf(m.fileID, i), pieces[i])
    ensures Assemble(Overwrite(store, responses), hash, m.fileID, m.chunks) == (Flatten(pieces), true)
  {
    forall i | 0 <= i < |pieces|
      ensures PathOf(m.fileID, i) in Overwrite(store, responses) && Overwrite(store, responses)[PathOf(m.fileID, i)] == pieces[i]
    {
      LastArrives(store, responses, PathOf(m.fileID, i), pieces[i]);
    }
    RoundTripPrefix(m, Overwrite(store, responses), hash, pieces, |pieces|);
    assert m.chunks[..|pieces|] == m.chunks && pieces[..|pieces|] == pieces;
  }

  // ---------------------------------------------------------------------------------------
  // The client's methods
  // ---------------------------------------------------------------------------------------

  datatype SendResult = Sent | TooLarge | ReadError | NoKey

  class FileClient {
    const nodeID: string
    var store: ChunkStore
    var manifests: map<string, Manifest>

    constructor (nodeID: string)
      ensures store == map[] && manifests == map[] && this.nodeID == nodeID
    {
      this.nodeID := nodeID;
      store, manifests := map[], map[];
    }

    /**
     The read loop. A read may return any non-empty part of what is left, up to the buffer, or fail;
     each piece is hashed, listed and stored before the next read.
    */
    method WriteChunks(hash: Hash, file: Bytes, fileID: string)
        returns (ok: bool, chunks: seq<ChunkMeta>, ghost pieces: seq<Bytes>)
      modifies this`store
      ensures AreReads(pieces) && Describes(chunks, pieces, hash) && Holds(store, fileID, pieces)
      ensures Flatten(pieces) <= file && (ok ==> Flatten(pieces) == file)
      ensures forall p :: p in old(store) && (forall i :: 0 <= i < |chunks| ==> p != PathOf(fileID, i)) ==>
                p in store && store[p] == old(store)[p]
    {
      chunks, pieces := [], [];
      var position := 0;
      while true
        invariant 0 <= position <= |file| && Flatten(pieces) == file[..position]
        invariant AreReads(pieces) && Describes(chunks, pieces, hash) && Holds(store, fileID, pieces)
        invariant forall p :: p in old(store) && (forall i :: 0 <= i < |chunks| ==> p != PathOf(fileID, i)) ==>
                    p in store && store[p] == old(store)[p]
        decreases |file| - position
      {
        var failed: bool := *;
        if failed {
          return false, chunks, pieces;
        }
        if position == |file| {
          return true, chunks, pieces;
        }
        var n :| 0 < n <= CHUNK_SIZE && position + n <= |file|;
        var piece := file[position..position + n];
        NextPiece(store, fileID, pieces, piece);
        NextChunk(hash, chunks, pieces, piece);
        store := store[PathOf(fileID, |chunks|) := piece];
        chunks := chunks + [ChunkMeta(|chunks|, hash(piece))];
        pieces := pieces + [piece];
        assert file[..position] + piece == file[..position + n];
        position := position + n;
      }
    }

    method SendFile(hash: Hash, file: Bytes, fileID: string, name: string, keyFound: bool) returns (r: SendResult)
      modifies this
      ensures r == TooLarge <==> |file| > MAX_FILE_SIZE
      ensures r == Sent ==>
                && fileID in manifests
                && manifests == old(manifests)[fileID := Manifest(fileID, name, |file|, manifests[fileID].chunks, nodeID)]
                && exists pieces :: SentAs(manifests[fileID], store, hash, file, pieces)
      ensures r != Sent ==> manifests == old(manifests)
      ensures r == TooLarge ==> store == old(store)
    {
      if |file| > MAX_FILE_SIZE {
        return TooLarge;
      }
      var ok, chunks, pieces := WriteChunks(hash, file, fileID);
      if !ok {
        return ReadError;
      }
      if !keyFound {
        return NoKey;
      }
      manifests := manifests[fileID := Manifest(fileID, name, |file|, chunks, nodeID)];
      assert SentAs(manifests[fileID], store, hash, file, pieces);
      return Sent;
    }

    method HandleChunkResponse(r: Response)
      modifies this`store
      ensures store == Overwrite(old(store), [r])
    {
      store := store[ChunkPath(r.fileID, r.index) := r.data];
      assert [r][..0] == [];
    }

    /** None when there is no manifest; otherwise what was written and whether it is complete. */
    method SaveFileToDisk(hash: Hash, fileID: string) returns (r: Option<(Bytes, bool)>)
      ensures r == if fileID in manifests then Some(Assemble(store, hash, fileID, manifests[fileID].chunks)) else None
    {
      if fileID !in manifests {
        return None;
      }
      var chunks := manifests[fileID].chunks;
      var out := [];
      var i := 0;
      while i < |chunks|
        invariant 0 <= i <= |chunks|
        invariant Assemble(store, hash, fileID, chunks[..i]) == (out, true)
      {
        assert chunks[..i + 1][..i] == chunks[..i];
        var path := PathOf(fileID, chunks[i].index);
        if path !in store || hash(store[path]) != chunks[i].hash {
          AssembleStops(store, hash, fileID, chunks, i);
          return Some((out, false));
        }
        out := out + store[path];
        i := i + 1;
      }
      assert chunks[..i] == chunks;
      return Some((out, true));
    }
  }

  /** The next piece extends the list, the file written so far and the description. */
  lemma NextChunk(hash: Hash, chunks: seq<ChunkMeta>, pieces: seq<Bytes>, piece: Bytes)
    requires Describes(chunks, pieces, hash) && AreReads(pieces) && 0 < |piece| <= CHUNK_SIZE
    ensures Describes(chunks + [ChunkMeta(|chunks|, hash(piece))], pieces + [piece], hash)
    ensures AreReads(pieces + [piece]) && Flatten(pieces + [piece]) == Flatten(pieces) + piece
  {
    assert (pieces + [piece])[..|pieces|] == pieces;
  }

  /** Storing the next piece leaves the earlier ones in place, because chunk names differ. */
  lemma NextPiece(store: ChunkStore, fileID: string, pieces: seq<Bytes>, piece: Bytes)
    requires Holds(store, fileID, pieces)
    ensures Holds(store[PathOf(fileID, |pieces|) := piece], fileID, pieces + [piece])
  {
    forall i | 0 <= i < |pieces| ensures PathOf(fileID, i) != PathOf(fileID, |pieces|) {
      if PathOf(fileID, i) == PathOf(fileID, |pieces|) { PathInjective(fileID, i, |pieces|); }
    }
  }

  /** Once a chunk is bad, nothing more is written. */
  lemma {:induction false} AssembleStops(store: ChunkStore, hash: Hash, fileID: string, chunks: seq<ChunkMeta>, i: nat)
    requires i < |chunks| && !ChunkGood(store, hash, fileID, chunks[i])
    ensures Assemble(store, hash, fileID, chunks) == (Assemble(store, hash, fileID, chunks[..i]).0, false)
            || !Assemble(store, hash, fileID, chunks[..i]).1
    decreases |chunks|
  {
    var n := |chunks| - 1;
    if i < n {
      AssembleStops(store, hash, fileID, chunks[..n], i);
      assert chunks[..n][..i] == chunks[..i];
    } else {
      assert chunks[..n] == chunks[..i];
    }
  }
}
