/** Content identity: a file is known by its size and by the digest of its bytes. */
module Identity {
  import opened Wrappers

  newtype byte = x: int | 0 <= x < 256

  type Bytes = seq<byte>

  /** SHA-256 as an abstract function: nothing below looks inside it. */
  type Hash = Bytes -> string

  datatype ContentIdentity = ContentIdentity(size: nat, sha: string)

  function IdentityOf(h: Hash, data: Bytes): ContentIdentity {
    ContentIdentity(|data|, h(data))
  }

  /** No two byte strings share a digest. */
  ghost predicate CollisionFree(h: Hash) {
    forall a: Bytes, b: Bytes :: h(a) == h(b) ==> a == b
  }

  /** The weaker hypothesis the store needs: a digest determines the size. */
  ghost predicate SizeDetermined(h: Hash) {
    forall a: Bytes, b: Bytes :: h(a) == h(b) ==> |a| == |b|
  }

  /** Some file has this identity; every identity that preflight computes is of this kind. */
  ghost predicate Realizable(h: Hash, id: ContentIdentity) {
    exists data: Bytes :: IdentityOf(h, data) == id
  }

  lemma DigestDeterminesIdentity(h: Hash, a: ContentIdentity, b: ContentIdentity)
    requires SizeDetermined(h) && Realizable(h, a) && Realizable(h, b) && a.sha == b.sha
    ensures a == b
  {
    var x: Bytes :| IdentityOf(h, x) == a;
    var y: Bytes :| IdentityOf(h, y) == b;
    assert h(x) == h(y);
  }

  /** A file opened for reading. A read may come back short, but only end of file is empty. */
  class Reader {
    const data: Bytes
    var position: nat

    constructor (data: Bytes)
      ensures this.data == data && position == 0
    {
      this.data := data;
      position := 0;
    }

    method Read(limit: nat) returns (chunk: Bytes)
      requires position <= |data| && limit > 0
      modifies this
      ensures old(position) <= position <= |data|
      ensures chunk == data[old(position)..position] && |chunk| <= limit
      ensures chunk == [] <==> old(position) == |data|
    {
      var left := |data| - position;
      if left == 0 {
        return [];
      }
      var n: nat :| 1 <= n <= left && n <= limit;
      chunk := data[position..position + n];
      position := position + n;
    }
  }

  datatype StreamError = ChunkNotPositive

  /** Streams a file in chunks; the digest object is the concatenation of its updates. */
  method HashStream(h: Hash, reader: Reader, chunkBytes: int)
    returns (r: Result<ContentIdentity, StreamError>)
    requires reader.position == 0
    modifies reader
    ensures r == if chunkBytes <= 0 then Failure(ChunkNotPositive) else Success(IdentityOf(h, reader.data))
    ensures chunkBytes <= 0 ==> reader.position == 0
  {
    if chunkBytes <= 0 {
      return Failure(ChunkNotPositive);
    }
    var digested: Bytes := [];
    var size := 0;
    while true
      invariant reader.position <= |reader.data|
      invariant digested == reader.data[..reader.position] && size == |digested|
      decreases |reader.data| - reader.position
    {
      var chunk := reader.Read(chunkBytes);
      if chunk == [] {
        break;
      }
      size := size + |chunk|;
      digested := digested + chunk;
    }
    assert digested == reader.data;
    return Success(ContentIdentity(size, h(digested)));
  }
}
