/** The content manager: the SQLite tables that record provided content, locked
    chunks, known nodes and chunk digests, the queries over them, the round-robin
    assignment of chunks to peers and the splitting of a file into chunks.

    Each table is a sequence of rows in insertion (rowid) order. An upsert changes the
    conflicting row where it stands and otherwise appends; a delete keeps the
    remaining rows in order. Database and pool errors are not modelled, so the
    mutators always succeed. */
module Content {
  import opened Common
  import opened Numerals
  import opened Hex

  /** SQLite's 64-bit signed INTEGER. */
  type I64 = x: int | -0x8000_0000_0000_0000 <= x < 0x8000_0000_0000_0000

  /** Rust's `u64`. */
  type U64 = x: int | 0 <= x < 0x1_0000_0000_0000_0000

  /** `x as i64` for a `u64`: values of 2^63 and above wrap around to negative ones. */
  function ToI64(x: U64): (y: I64)
    ensures 0 <= y ==> y == x
    ensures y < 0 ==> y == x - 0x1_0000_0000_0000_0000
  {
    if x < 0x8000_0000_0000_0000 then x else x - 0x1_0000_0000_0000_0000
  }

  /** The cast loses nothing: distinct sizes are stored as distinct integers. */
  lemma ToI64Injective(a: U64, b: U64)
    requires ToI64(a) == ToI64(b)
    ensures a == b
  {
  }

  // ---------------------------------------------------------------------------
  // Rows

  /** A row of `provided_contents`; `chunkCount` is a nullable column. */
  datatype ProvidedRow = ProvidedRow(
    id: nat, contentHash: string, fileName: string, chunkCount: Option<I64>, peerId: string, fileSize: I64)

  /** A row of `locked_contents`, unique on `(contentHash, chunkIndex)`. */
  datatype LockedRow = LockedRow(contentHash: string, chunkIndex: I64, chunkSize: I64, peerId: string)

  /** A row of `chunks`; only the digest is ever written, the other columns keep their
      defaults (NULL and FALSE). */
  datatype ChunkRow = ChunkRow(contentChunkHash: string, peerId: Option<string>, isCached: bool)

  /** `content_hash` is UNIQUE in `provided_contents`. */
  predicate UniqueHashes(rows: seq<ProvidedRow>)
  {
    forall i, j :: 0 <= i < j < |rows| ==> rows[i].contentHash != rows[j].contentHash
  }

  /** AUTOINCREMENT ids grow with the rowid order. */
  predicate IncreasingIds(rows: seq<ProvidedRow>, nextId: nat)
  {
    && (forall i, j :: 0 <= i < j < |rows| ==> rows[i].id < rows[j].id)
    && (forall i :: 0 <= i < |rows| ==> rows[i].id < nextId)
  }

  /** `(content_hash, chunk_index)` is UNIQUE in `locked_contents`. */
  predicate UniqueLockKeys(rows: seq<LockedRow>)
  {
    forall i, j :: 0 <= i < j < |rows| ==>
      (rows[i].contentHash, rows[i].chunkIndex) != (rows[j].contentHash, rows[j].chunkIndex)
  }

  predicate HasHash(rows: seq<ProvidedRow>, hash: string)
  {
    exists i :: 0 <= i < |rows| && rows[i].contentHash == hash
  }

  predicate HasLockKey(rows: seq<LockedRow>, hash: string, index: I64)
  {
    exists i :: 0 <= i < |rows| && rows[i].contentHash == hash && rows[i].chunkIndex == index
  }

  // ---------------------------------------------------------------------------
  // Table updates

  /** `INSERT … ON CONFLICT(content_hash) DO UPDATE SET peer_id, file_size, file_name`:
      a row with this hash gets the new values (its id and chunk count stay); otherwise
      a row is appended under the next id, with no chunk count. */
  function UpsertProvided(rows: seq<ProvidedRow>, nextId: nat, hash: string, peer: string, size: I64, name: string)
    : (r: seq<ProvidedRow>)
  {
    if HasHash(rows, hash) then
      seq(|rows|, i requires 0 <= i < |rows| =>
        if rows[i].contentHash == hash then rows[i].(peerId := peer, fileSize := size, fileName := name)
        else rows[i])
    else rows + [ProvidedRow(nextId, hash, name, None, peer, size)]
  }

  /** Re-registering a hash updates its one row in place: the latest peer, size and
      name win, the id and chunk count stay, every other row is unchanged. */
  lemma UpsertProvidedExisting(rows: seq<ProvidedRow>, nextId: nat, hash: string, peer: string, size: I64, name: string, k: nat)
    requires UniqueHashes(rows)
    requires k < |rows| && rows[k].contentHash == hash
    ensures UpsertProvided(rows, nextId, hash, peer, size, name)
         == rows[k := rows[k].(peerId := peer, fileSize := size, fileName := name)]
  {
  }

  /** A new hash is appended as one row under the next id, with no chunk count. */
  lemma UpsertProvidedNew(rows: seq<ProvidedRow>, nextId: nat, hash: string, peer: string, size: I64, name: string)
    requires !HasHash(rows, hash)
    ensures UpsertProvided(rows, nextId, hash, peer, size, name)
         == rows + [ProvidedRow(nextId, hash, name, None, peer, size)]
  {
  }

  /** The upsert keeps hashes unique and ids increasing, and leaves exactly one row
      for the hash. */
  lemma UpsertProvidedKeepsInvariant(rows: seq<ProvidedRow>, nextId: nat, hash: string, peer: string, size: I64, name: string)
    requires UniqueHashes(rows) && IncreasingIds(rows, nextId)
    ensures var r := UpsertProvided(rows, nextId, hash, peer, size, name);
      && UniqueHashes(r)
      && IncreasingIds(r, if HasHash(rows, hash) then nextId else nextId + 1)
      && HasHash(r, hash)
  {
    var r := UpsertProvided(rows, nextId, hash, peer, size, name);
    if !HasHash(rows, hash) {
      assert r[|rows|].contentHash == hash;
    } else {
      var k :| 0 <= k < |rows| && rows[k].contentHash == hash;
      assert r[k].contentHash == hash;
    }
  }

  /** No upsert ever fills in `chunk_count`. */
  lemma UpsertProvidedNeverSetsChunkCount(rows: seq<ProvidedRow>, nextId: nat, hash: string, peer: string, size: I64, name: string)
    requires forall i :: 0 <= i < |rows| ==> rows[i].chunkCount.None?
    ensures var r := UpsertProvided(rows, nextId, hash, peer, size, name);
      forall i :: 0 <= i < |r| ==> r[i].chunkCount.None?
  {
  }

  /** Registering the same content twice is the same as registering it once. */
  lemma UpsertProvidedIdempotent(rows: seq<ProvidedRow>, nextId: nat, hash: string, peer: string, size: I64, name: string)
    ensures var r := UpsertProvided(rows, nextId, hash, peer, size, name);
      UpsertProvided(r, nextId + 1, hash, peer, size, name) == r
  {
    var r := UpsertProvided(rows, nextId, hash, peer, size, name);
    if !HasHash(rows, hash) {
      assert r[|rows|].contentHash == hash;
    } else {
      var k :| 0 <= k < |rows| && rows[k].contentHash == hash;
      assert r[k].contentHash == hash;
    }
  }

  /** `INSERT … ON CONFLICT(content_hash, chunk_index) DO UPDATE SET chunk_size, peer_id`. */
  function UpsertLocked(rows: seq<LockedRow>, hash: string, index: I64, size: I64, peer: string): (r: seq<LockedRow>)
  {
    if HasLockKey(rows, hash, index) then
      seq(|rows|, i requires 0 <= i < |rows| =>
        if rows[i].contentHash == hash && rows[i].chunkIndex == index
        then rows[i].(chunkSize := size, peerId := peer)
        else rows[i])
    else rows + [LockedRow(hash, index, size, peer)]
  }

  /** Locking a chunk already locked updates its one row in place with the latest size
      and peer; every other row is unchanged. */
  lemma UpsertLockedExisting(rows: seq<LockedRow>, hash: string, index: I64, size: I64, peer: string, k: nat)
    requires UniqueLockKeys(rows)
    requires k < |rows| && rows[k].contentHash == hash && rows[k].chunkIndex == index
    ensures UpsertLocked(rows, hash, index, size, peer) == rows[k := LockedRow(hash, index, size, peer)]
  {
  }

  /** Locking a new chunk appends one row. */
  lemma UpsertLockedNew(rows: seq<LockedRow>, hash: string, index: I64, size: I64, peer: string)
    requires !HasLockKey(rows, hash, index)
    ensures UpsertLocked(rows, hash, index, size, peer) == rows + [LockedRow(hash, index, size, peer)]
  {
  }

  /** Locking keeps the keys unique and leaves one row for the key. */
  lemma UpsertLockedKeepsUnique(rows: seq<LockedRow>, hash: string, index: I64, size: I64, peer: string)
    requires UniqueLockKeys(rows)
    ensures UniqueLockKeys(UpsertLocked(rows, hash, index, size, peer))
    ensures HasLockKey(UpsertLocked(rows, hash, index, size, peer), hash, index)
  {
    var r := UpsertLocked(rows, hash, index, size, peer);
    if !HasLockKey(rows, hash, index) {
      assert r[|rows|].contentHash == hash && r[|rows|].chunkIndex == index;
    } else {
      var k :| 0 <= k < |rows| && rows[k].contentHash == hash && rows[k].chunkIndex == index;
      assert r[k].contentHash == hash && r[k].chunkIndex == index;
    }
  }

  /** Whether a lock row belongs to `(hash, peer)`. */
  predicate LockedBy(row: LockedRow, hash: string, peer: string)
  {
    row.contentHash == hash && row.peerId == peer
  }

  /** `DELETE FROM locked_contents WHERE content_hash = ? AND peer_id = ?`. */
  function Unlock(rows: seq<LockedRow>, hash: string, peer: string): (r: seq<LockedRow>)
    ensures forall k :: 0 <= k < |r| ==> !LockedBy(r[k], hash, peer)
    ensures forall k :: 0 <= k < |r| ==> r[k] in rows
    ensures forall k :: 0 <= k < |rows| && !LockedBy(rows[k], hash, peer) ==> rows[k] in r
  {
    Filter(rows, row => !LockedBy(row, hash, peer))
  }

  /** Unlocking removes nothing when no row matches both hash and peer. */
  lemma UnlockNoMatch(rows: seq<LockedRow>, hash: string, peer: string)
    requires forall k :: 0 <= k < |rows| ==> !LockedBy(rows[k], hash, peer)
    ensures Unlock(rows, hash, peer) == rows
  {
    var p := (row: LockedRow) => !LockedBy(row, hash, peer);
    assert forall i :: 0 <= i <= |rows| ==> Filter(rows[..i], p) == rows[..i] by {
      forall i | 0 <= i <= |rows|
        ensures Filter(rows[..i], p) == rows[..i]
      {
        FilterPrefixAll(rows, i, p);
      }
    }
    assert rows[..|rows|] == rows;
  }

  /** Filtering a prefix all of whose elements qualify keeps the prefix. */
  lemma {:induction false} FilterPrefixAll<T>(xs: seq<T>, i: nat, p: T -> bool)
    requires i <= |xs|
    requires forall k :: 0 <= k < |xs| ==> p(xs[k])
    ensures Filter(xs[..i], p) == xs[..i]
  {
    if i > 0 {
      FilterPrefixAll(xs, i - 1, p);
      FilterSnoc(xs, i - 1, p);
      assert p(xs[i - 1]);
      calc {
        Filter(xs[..i], p);
        Filter(xs[..i - 1], p) + [xs[i - 1]];
        xs[..i - 1] + [xs[i - 1]];
        xs[..i];
      }
    }
  }

  /** Unlocking keeps the lock keys unique. */
  lemma {:induction false} UnlockKeepsUnique(rows: seq<LockedRow>, hash: string, peer: string)
    requires UniqueLockKeys(rows)
    ensures UniqueLockKeys(Unlock(rows, hash, peer))
  {
    if rows != [] {
      var init, last := rows[..|rows| - 1], rows[|rows| - 1];
      assert rows == init + [last];
      UnlockKeepsUnique(init, hash, peer);
      var r0 := Unlock(init, hash, peer);
      assert Unlock(rows, hash, peer) == r0 + (if !LockedBy(last, hash, peer) then [last] else []);
      forall k | 0 <= k < |r0|
        ensures (r0[k].contentHash, r0[k].chunkIndex) != (last.contentHash, last.chunkIndex)
      {
        var m :| 0 <= m < |init| && init[m] == r0[k];
        assert rows[m] == init[m];
      }
    }
  }

  // ---------------------------------------------------------------------------
  // Queries

  /** Tuples `(id, content_hash, peer_id, file_size)` of the rows with this hash. */
  function ProvidedContentOf(rows: seq<ProvidedRow>, hash: string): (r: seq<(int, string, string, int)>)
  {
    var hits := Filter(rows, (row: ProvidedRow) => row.contentHash == hash);
    seq(|hits|, i requires 0 <= i < |hits| => (hits[i].id as int, hits[i].contentHash, hits[i].peerId, hits[i].fileSize as int))
  }

  /** Because `content_hash` is UNIQUE, the lookup returns at most one row, and exactly
      the row holding the hash when there is one. */
  lemma ProvidedContentAtMostOne(rows: seq<ProvidedRow>, hash: string, k: nat)
    requires UniqueHashes(rows)
    requires k < |rows| && rows[k].contentHash == hash
    ensures ProvidedContentOf(rows, hash)
         == [(rows[k].id as int, hash, rows[k].peerId, rows[k].fileSize as int)]
  {
    var p := (row: ProvidedRow) => row.contentHash == hash;
    forall i | 0 <= i <= |rows|
      ensures Filter(rows[..i], p) == if i > k then [rows[k]] else []
    {
      FilterUniqueHit(rows, hash, k, i);
    }
    assert rows[..|rows|] == rows;
  }

  /** Filtering a prefix of rows with unique hashes by a hash held at `k`. */
  lemma {:induction false} FilterUniqueHit(rows: seq<ProvidedRow>, hash: string, k: nat, i: nat)
    requires UniqueHashes(rows)
    requires k < |rows| && rows[k].contentHash == hash
    requires i <= |rows|
    ensures Filter(rows[..i], (row: ProvidedRow) => row.contentHash == hash) == if i > k then [rows[k]] else []
  {
    var p := (row: ProvidedRow) => row.contentHash == hash;
    if i > 0 {
      FilterUniqueHit(rows, hash, k, i - 1);
      FilterSnoc(rows, i - 1, p);
    } else {
      assert rows[..i] == [];
    }
  }

  /** After registering content, looking its hash up gives one row with the latest peer
      and size; a new hash gets the next id, a known one keeps its id. */
  lemma AddThenGetProvided(rows: seq<ProvidedRow>, nextId: nat, hash: string, peer: string, size: I64, name: string)
    requires UniqueHashes(rows) && IncreasingIds(rows, nextId)
    ensures var found := ProvidedContentOf(UpsertProvided(rows, nextId, hash, peer, size, name), hash);
      && |found| == 1
      && found[0].1 == hash && found[0].2 == peer && found[0].3 == size
      && (!HasHash(rows, hash) ==> found[0].0 == nextId)
      && (forall k :: 0 <= k < |rows| && rows[k].contentHash == hash ==> found[0].0 == rows[k].id)
  {
    var r := UpsertProvided(rows, nextId, hash, peer, size, name);
    UpsertProvidedKeepsInvariant(rows, nextId, hash, peer, size, name);
    if HasHash(rows, hash) {
      var k :| 0 <= k < |rows| && rows[k].contentHash == hash;
      UpsertProvidedExisting(rows, nextId, hash, peer, size, name, k);
      ProvidedContentAtMostOne(r, hash, k);
    } else {
      UpsertProvidedNew(rows, nextId, hash, peer, size, name);
      ProvidedContentAtMostOne(r, hash, |rows|);
    }
  }

  /** No row for the hash, no result. */
  lemma ProvidedContentAbsent(rows: seq<ProvidedRow>, hash: string)
    requires !HasHash(rows, hash)
    ensures ProvidedContentOf(rows, hash) == []
  {
    FilterNone(rows, (row: ProvidedRow) => row.contentHash == hash);
  }

  /** `SELECT content_hash FROM provided_contents WHERE peer_id = ?`. */
  function PeerProvidedContent(rows: seq<ProvidedRow>, peer: string): (r: seq<string>)
    ensures forall h :: h in r <==> exists i :: 0 <= i < |rows| && rows[i].peerId == peer && rows[i].contentHash == h
  {
    var hits := Filter(rows, (row: ProvidedRow) => row.peerId == peer);
    var r := seq(|hits|, i requires 0 <= i < |hits| => hits[i].contentHash);
    assert forall h :: h in r ==> exists i :: 0 <= i < |rows| && rows[i].peerId == peer && rows[i].contentHash == h by {
      forall h | h in r
        ensures exists i :: 0 <= i < |rows| && rows[i].peerId == peer && rows[i].contentHash == h
      {
        var k :| 0 <= k < |r| && r[k] == h;
        var i :| 0 <= i < |rows| && rows[i] == hits[k];
      }
    }
    assert forall i :: 0 <= i < |rows| && rows[i].peerId == peer ==> rows[i].contentHash in r by {
      forall i | 0 <= i < |rows| && rows[i].peerId == peer
        ensures rows[i].contentHash in r
      {
        var k :| 0 <= k < |hits| && hits[k] == rows[i];
        assert r[k] == rows[i].contentHash;
      }
    }
    r
  }

  /** The locked rows of `peer`, in row order. */
  function LockedRowsOf(rows: seq<LockedRow>, peer: string): seq<LockedRow>
  {
    Filter(rows, (row: LockedRow) => row.peerId == peer)
  }

  /** `SELECT content_hash FROM locked_contents WHERE peer_id = ?`: one hash per locked
      chunk of the peer, so a content appears once for each of its chunks the peer holds. */
  function PeerLockedContent(rows: seq<LockedRow>, peer: string): (r: seq<string>)
    ensures |r| == |LockedRowsOf(rows, peer)|
    ensures forall k :: 0 <= k < |r| ==> r[k] == LockedRowsOf(rows, peer)[k].contentHash
    ensures forall h :: h in r <==> exists i :: 0 <= i < |rows| && rows[i].peerId == peer && rows[i].contentHash == h
  {
    var hits := LockedRowsOf(rows, peer);
    var r := seq(|hits|, i requires 0 <= i < |hits| => hits[i].contentHash);
    assert forall h :: h in r ==> exists i :: 0 <= i < |rows| && rows[i].peerId == peer && rows[i].contentHash == h by {
      forall h | h in r
        ensures exists i :: 0 <= i < |rows| && rows[i].peerId == peer && rows[i].contentHash == h
      {
        var k :| 0 <= k < |r| && r[k] == h;
        var i :| 0 <= i < |rows| && rows[i] == hits[k];
      }
    }
    assert forall i :: 0 <= i < |rows| && rows[i].peerId == peer ==> rows[i].contentHash in r by {
      forall i | 0 <= i < |rows| && rows[i].peerId == peer
        ensures rows[i].contentHash in r
      {
        var k :| 0 <= k < |hits| && hits[k] == rows[i];
        assert r[k] == rows[i].contentHash;
      }
    }
    r
  }

  /** Locking a new chunk adds one entry for its content to the locking peer's list and
      leaves every other peer's list as it was; locking chunks 0, 1 and 2 of one content
      therefore lists that content three times. */
  lemma {:induction false} LockNewChunkAddsEntry(rows: seq<LockedRow>, hash: string, index: I64, size: I64, peer: string, other: string)
    requires !HasLockKey(rows, hash, index)
    requires other != peer
    ensures PeerLockedContent(UpsertLocked(rows, hash, index, size, peer), peer) == PeerLockedContent(rows, peer) + [hash]
    ensures PeerLockedContent(UpsertLocked(rows, hash, index, size, peer), other) == PeerLockedContent(rows, other)
  {
    var row := LockedRow(hash, index, size, peer);
    var rows' := rows + [row];
    UpsertLockedNew(rows, hash, index, size, peer);
    assert rows'[..|rows'| - 1] == rows;
    assert LockedRowsOf(rows', peer) == LockedRowsOf(rows, peer) + [row];
    assert LockedRowsOf(rows', other) == LockedRowsOf(rows, other);
    var before, after := PeerLockedContent(rows, peer), PeerLockedContent(rows', peer);
    assert |after| == |before| + 1;
    forall k | 0 <= k < |after|
      ensures after[k] == (before + [hash])[k]
    {
      if k < |before| {
        assert LockedRowsOf(rows', peer)[k] == LockedRowsOf(rows, peer)[k];
      }
    }
  }

  /** `SELECT content_hash FROM locked_contents`: one hash per locked chunk, in order. */
  function LockedContent(rows: seq<LockedRow>): (r: seq<string>)
    ensures |r| == |rows|
    ensures forall i :: 0 <= i < |rows| ==> r[i] == rows[i].contentHash
  {
    seq(|rows|, i requires 0 <= i < |rows| => rows[i].contentHash)
  }

  /** Tuples `(chunk_index, peer_id, chunk_size)` of the locked chunks of a content. */
  function ChunksOf(rows: seq<LockedRow>, hash: string): (r: seq<(int, string, int)>)
  {
    var hits := Filter(rows, (row: LockedRow) => row.contentHash == hash);
    seq(|hits|, i requires 0 <= i < |hits| => (hits[i].chunkIndex as int, hits[i].peerId, hits[i].chunkSize as int))
  }

  /** A peer's locks of a content disappear from every query once it unlocks it, while
      the locks of other peers stay listed. */
  lemma UnlockHidesFromQueries(rows: seq<LockedRow>, hash: string, peer: string)
    ensures forall i :: 0 <= i < |ChunksOf(Unlock(rows, hash, peer), hash)| ==> ChunksOf(Unlock(rows, hash, peer), hash)[i].1 != peer
    ensures forall k :: 0 <= k < |rows| && rows[k].contentHash == hash && rows[k].peerId != peer ==>
      (rows[k].chunkIndex as int, rows[k].peerId, rows[k].chunkSize as int) in ChunksOf(Unlock(rows, hash, peer), hash)
  {
    var u := Unlock(rows, hash, peer);
    var hits := Filter(u, (row: LockedRow) => row.contentHash == hash);
    var c := ChunksOf(u, hash);
    forall i | 0 <= i < |c|
      ensures c[i].1 != peer
    {
      assert hits[i] in u;
    }
    forall k | 0 <= k < |rows| && rows[k].contentHash == hash && rows[k].peerId != peer
      ensures (rows[k].chunkIndex as int, rows[k].peerId, rows[k].chunkSize as int) in c
    {
      var m :| 0 <= m < |u| && u[m] == rows[k];
      var j :| 0 <= j < |hits| && hits[j] == u[m];
      assert c[j] == (rows[k].chunkIndex as int, rows[k].peerId, rows[k].chunkSize as int);
    }
  }

  /** The locking life cycle: a second peer re-locking a chunk takes it over (one row,
      the latest size and peer); the first peer's unlock then removes nothing, and the
      second peer's unlock removes it. */
  lemma RelockThenUnlock(hash: string, index: I64, size1: I64, size2: I64, a: string, b: string)
    requires a != b
    ensures var once := UpsertLocked([], hash, index, size1, a);
      var twice := UpsertLocked(once, hash, index, size2, b);
      && twice == [LockedRow(hash, index, size2, b)]
      && Unlock(twice, hash, a) == twice
      && Unlock(Unlock(twice, hash, a), hash, b) == []
  {
    var once := UpsertLocked([], hash, index, size1, a);
    assert once == [LockedRow(hash, index, size1, a)];
    var twice := UpsertLocked(once, hash, index, size2, b);
    assert twice[0] == LockedRow(hash, index, size2, b);
    UnlockNoMatch(twice, hash, a);
  }

  // ---------------------------------------------------------------------------
  // Chunk naming and distribution

  /** `format!("{}_chunk_{}", content_hash, i)`. */
  function ChunkId(hash: string, i: nat): (id: string)
    ensures |hash| < |id| && id[..|hash|] == hash
  {
    hash + "_chunk_" + ToRadix(i, 10)
  }

  /** The chunks of one content have distinct identifiers. */
  lemma ChunkIdInjective(hash: string, i: nat, j: nat)
    requires ChunkId(hash, i) == ChunkId(hash, j)
    ensures i == j
  {
    var prefix := hash + "_chunk_";
    assert ChunkId(hash, i)[|prefix|..] == ToRadix(i, 10);
    assert ChunkId(hash, j)[|prefix|..] == ToRadix(j, 10);
    ToRadixInjective(i, j, 10);
  }

  /** The round-robin assignment of `n` chunks: chunk `i` goes to peer `i mod |peers|`
      under the identifier `hash_chunk_i`. */
  function RoundRobin(hash: string, peers: seq<string>, n: nat): (a: seq<(string, string)>)
    requires peers != []
  {
    seq(n, i requires 0 <= i < n => (peers[i % |peers|], ChunkId(hash, i)))
  }

  /** Some chunk of the assignment goes to `peer`. */
  predicate Assigned(a: seq<(string, string)>, peer: string)
  {
    exists i :: 0 <= i < |a| && a[i].0 == peer
  }

  /** With at least as many chunks as peers, every peer is assigned a chunk. */
  lemma RoundRobinCoversPeers(hash: string, peers: seq<string>, n: nat)
    requires 0 < |peers| <= n
    ensures forall j :: 0 <= j < |peers| ==> Assigned(RoundRobin(hash, peers, n), peers[j])
  {
    var a := RoundRobin(hash, peers, n);
    forall j | 0 <= j < |peers|
      ensures Assigned(a, peers[j])
    {
      assert j % |peers| == j;
      assert a[j].0 == peers[j];
    }
  }

  /** Every chunk of the assignment has its own identifier, and each identifier names
      the content it belongs to. */
  lemma RoundRobinIdsDistinct(hash: string, peers: seq<string>, n: nat)
    requires peers != []
    ensures forall i, k :: 0 <= i < k < n ==> RoundRobin(hash, peers, n)[i].1 != RoundRobin(hash, peers, n)[k].1
    ensures forall i :: 0 <= i < n ==> RoundRobin(hash, peers, n)[i].1[..|hash|] == hash
  {
    var a := RoundRobin(hash, peers, n);
    forall i, k | 0 <= i < k < n
      ensures a[i].1 != a[k].1
    {
      if a[i].1 == a[k].1 {
        ChunkIdInjective(hash, i, k);
      }
    }
  }

  /** `distribute_file_chunks`: no peers is an error; otherwise the round-robin
      assignment of as many chunks as were given, whatever their bytes. */
  method DistributeFileChunks(hash: string, peers: seq<string>, fileChunks: seq<seq<Byte>>)
    returns (r: Result<seq<(string, string)>>)
    ensures peers == [] <==> r.Err?
    ensures r.Err? ==> r.error == "No available peers to distribute chunks."
    ensures r.Ok? ==> r.value == RoundRobin(hash, peers, |fileChunks|)
  {
    if peers == [] {
      return Err("No available peers to distribute chunks.");
    }
    var assignment: seq<(string, string)> := [];
    for i := 0 to |fileChunks|
      invariant assignment == RoundRobin(hash, peers, i)
    {
      var peerIndex := i % |peers|;
      assignment := assignment + [(peers[peerIndex], ChunkId(hash, i))];
    }
    return Ok(assignment);
  }

  // ---------------------------------------------------------------------------
  // Splitting a file

  /** An open file: its bytes and the read position. `Read` may return fewer bytes
      than asked for and may fail, as an operating-system read does. */
  class OpenFile {
    const data: seq<Byte>
    var pos: nat

    constructor(data: seq<Byte>)
      ensures this.data == data && pos == 0
    {
      this.data := data;
      pos := 0;
    }

    /** Read up to `max` bytes at the position. Zero bytes are returned exactly when
        `max` is zero or the file is at its end; otherwise between 1 and `max` bytes are
        returned, or an error leaves the position unchanged. */
    method Read(max: nat) returns (r: Result<seq<Byte>>)
      requires pos <= |data|
      modifies this`pos
      ensures pos <= |data|
      ensures r.Ok? ==> old(pos) + |r.value| == pos && r.value == data[old(pos)..pos] && |r.value| <= max
      ensures r.Ok? ==> (|r.value| == 0 <==> max == 0 || old(pos) == |data|)
      ensures r.Err? ==> pos == old(pos) && max > 0
    {
      if max == 0 || pos == |data| {
        return Ok([]);
      }
      var failed: bool :| true;
      if failed {
        return Err("Input/output error (os error 5)");  // a stand-in for the OS error text
      }
      var n: nat :| 1 <= n <= max && pos + n <= |data|;
      r := Ok(data[pos..pos + n]);
      pos := pos + n;
    }
  }

  /** The digest rows `split_file_into_chunks` inserts for a sequence of chunks. */
  function DigestRows(chunks: seq<seq<Byte>>, sha256: seq<Byte> -> seq<Byte>): (rows: seq<ChunkRow>)
    ensures |rows| == |chunks|
  {
    seq(|chunks|, i requires 0 <= i < |chunks| => ChunkRow(HexEncode(sha256(chunks[i])), None, false))
  }

  /** One more chunk read: the bytes read so far grow by it, and so do the digest rows. */
  lemma ReadStep(data: seq<Byte>, before: nat, pos: nat, acc: seq<seq<Byte>>, piece: seq<Byte>,
                 sha256: seq<Byte> -> seq<Byte>)
    requires before <= pos <= |data| && piece == data[before..pos]
    requires Concat(acc) == data[..before]
    ensures Concat(acc + [piece]) == data[..pos]
    ensures DigestRows(acc + [piece], sha256) == DigestRows(acc, sha256) + [ChunkRow(HexEncode(sha256(piece)), None, false)]
  {
    assert (acc + [piece])[..|acc|] == acc;
    assert data[..pos] == data[..before] + data[before..pos];
  }

  /** The row loop of `get_provided_content`. */
  method CollectProvided(rows: seq<ProvidedRow>, hash: string) returns (r: seq<(int, string, string, int)>)
    ensures r == ProvidedContentOf(rows, hash)
  {
    var hits: seq<ProvidedRow> := [];
    r := [];
    for i := 0 to |rows|
      invariant hits == Filter(rows[..i], (row: ProvidedRow) => row.contentHash == hash)
      invariant |r| == |hits|
      invariant forall k :: 0 <= k < |r| ==> r[k] == (hits[k].id as int, hits[k].contentHash, hits[k].peerId, hits[k].fileSize as int)
    {
      FilterSnoc(rows, i, (row: ProvidedRow) => row.contentHash == hash);
      var row := rows[i];
      if row.contentHash == hash {
        hits := hits + [row];
        r := r + [(row.id as int, row.contentHash, row.peerId, row.fileSize as int)];
      }
    }
    assert rows[..|rows|] == rows;
  }

  /** The content manager's tables. */
  class ContentManager {
    var provided: seq<ProvidedRow>
    var nextProvidedId: nat
    var chunks: seq<ChunkRow>
    var nodes: seq<string>
    var locked: seq<LockedRow>

    /** The UNIQUE constraints and the AUTOINCREMENT order. */
    ghost predicate Valid()
      reads this
    {
      && UniqueHashes(provided)
      && IncreasingIds(provided, nextProvidedId)
      && UniqueLockKeys(locked)
    }

    /** Empty tables; AUTOINCREMENT starts at 1. */
    constructor()
      ensures Valid()
      ensures provided == [] && chunks == [] && nodes == [] && locked == []
      ensures nextProvidedId == 1
    {
      provided, nextProvidedId, chunks, nodes, locked := [], 1, [], [], [];
    }

    /** `add_provided_content`: upsert on the hash; the size is stored as `i64`. */
    method AddProvidedContent(hash: string, peer: string, fileSize: U64, fileName: string)
      requires Valid()
      modifies this`provided, this`nextProvidedId
      ensures Valid()
      ensures provided == UpsertProvided(old(provided), old(nextProvidedId), hash, peer, ToI64(fileSize), fileName)
      ensures nextProvidedId == if HasHash(old(provided), hash) then old(nextProvidedId) else old(nextProvidedId) + 1
    {
      UpsertProvidedKeepsInvariant(provided, nextProvidedId, hash, peer, ToI64(fileSize), fileName);
      var existed := HasHash(provided, hash);
      provided := UpsertProvided(provided, nextProvidedId, hash, peer, ToI64(fileSize), fileName);
      if !existed {
        nextProvidedId := nextProvidedId + 1;
      }
    }

    /** `add_node`: always appends, duplicates included. */
    method AddNode(peer: string)
      requires Valid()
      modifies this`nodes
      ensures Valid()
      ensures nodes == old(nodes) + [peer]
    {
      nodes := nodes + [peer];
    }

    /** `lock_content`: upsert on `(hash, index)`. */
    method LockContent(hash: string, index: I64, size: I64, peer: string)
      requires Valid()
      modifies this`locked
      ensures Valid()
      ensures locked == UpsertLocked(old(locked), hash, index, size, peer)
    {
      UpsertLockedKeepsUnique(locked, hash, index, size, peer);
      locked := UpsertLocked(locked, hash, index, size, peer);
    }

    /** `unlock_content`: delete the rows of this hash and peer. */
    method UnlockContent(hash: string, peer: string)
      requires Valid()
      modifies this`locked
      ensures Valid()
      ensures locked == Unlock(old(locked), hash, peer)
    {
      UnlockKeepsUnique(locked, hash, peer);
      locked := Unlock(locked, hash, peer);
    }

    /** `get_peerid_locked_content`. */
    function GetPeerIdLockedContent(peer: string): (r: seq<string>)
      reads this
      ensures |r| == |LockedRowsOf(locked, peer)|
      ensures forall k :: 0 <= k < |r| ==> r[k] == LockedRowsOf(locked, peer)[k].contentHash
      ensures forall h :: h in r <==> exists i :: 0 <= i < |locked| && locked[i].peerId == peer && locked[i].contentHash == h
    {
      PeerLockedContent(locked, peer)
    }

    /** `get_peerid_provided_content`. */
    function GetPeerIdProvidedContent(peer: string): (r: seq<string>)
      reads this
      ensures forall h :: h in r <==> exists i :: 0 <= i < |provided| && provided[i].peerId == peer && provided[i].contentHash == h
    {
      PeerProvidedContent(provided, peer)
    }

    /** `get_locked_content`. */
    function GetLockedContent(): (r: seq<string>)
      reads this
      ensures |r| == |locked| && forall i :: 0 <= i < |r| ==> r[i] == locked[i].contentHash
    {
      LockedContent(locked)
    }

    /** `get_provided_content`: the row loop over the rows with this hash; at most one
        row, thanks to the UNIQUE hash. */
    method GetProvidedContent(hash: string) returns (r: seq<(int, string, string, int)>)
      requires Valid()
      ensures r == ProvidedContentOf(provided, hash)
      ensures |r| <= 1
    {
      r := CollectProvided(provided, hash);
      if HasHash(provided, hash) {
        var k :| 0 <= k < |provided| && provided[k].contentHash == hash;
        ProvidedContentAtMostOne(provided, hash, k);
      } else {
        ProvidedContentAbsent(provided, hash);
      }
    }

    /** `get_chunks_for_content`: the row loop over the locks of this content. */
    method GetChunksForContent(hash: string) returns (r: seq<(int, string, int)>)
      ensures r == ChunksOf(locked, hash)
    {
      var hits: seq<LockedRow> := [];
      r := [];
      for i := 0 to |locked|
        invariant hits == Filter(locked[..i], (row: LockedRow) => row.contentHash == hash)
        invariant |r| == |hits|
        invariant forall k :: 0 <= k < |r| ==> r[k] == (hits[k].chunkIndex as int, hits[k].peerId, hits[k].chunkSize as int)
      {
        FilterSnoc(locked, i, (row: LockedRow) => row.contentHash == hash);
        var row := locked[i];
        if row.contentHash == hash {
          hits := hits + [row];
          r := r + [(row.chunkIndex as int, row.peerId, row.chunkSize as int)];
        }
      }
      assert locked[..|locked|] == locked;
    }

    /** `get_chunks_for_file`: the same query. */
    method GetChunksForFile(hash: string) returns (r: seq<(int, string, int)>)
      ensures r == ChunksOf(locked, hash)
    {
      r := GetChunksForContent(hash);
    }

    /** `get_nodes`: parse every stored peer id in order; the first failure aborts the
        whole query with its message. */
    method GetNodes(parsePeerId: string -> Result<string>) returns (r: Result<seq<string>>)
      ensures r.Ok? <==> forall i :: 0 <= i < |nodes| ==> parsePeerId(nodes[i]).Ok?
      ensures r.Ok? ==> |r.value| == |nodes| && forall i :: 0 <= i < |nodes| ==> r.value[i] == parsePeerId(nodes[i]).value
      ensures r.Err? ==> exists i :: && 0 <= i < |nodes| && parsePeerId(nodes[i]).Err?
                                     && (forall j :: 0 <= j < i ==> parsePeerId(nodes[j]).Ok?)
                                     && r.error == "Failed to parse PeerId: " + parsePeerId(nodes[i]).error
    {
      var parsed: seq<string> := [];
      for i := 0 to |nodes|
        invariant |parsed| == i
        invariant forall k :: 0 <= k < i ==> parsePeerId(nodes[k]).Ok? && parsed[k] == parsePeerId(nodes[k]).value
      {
        match parsePeerId(nodes[i])
        case Ok(peer) =>
          parsed := parsed + [peer];
        case Err(e) =>
          return Err("Failed to parse PeerId: " + e);
      }
      return Ok(parsed);
    }

    /** `split_file_into_chunks`: read until a read returns nothing, recording one digest
        row per chunk read. `file` is null when the file cannot be opened. The chunks
        read before a failing read keep their digest rows; `done` is what was read. */
    method SplitFileIntoChunks(file: OpenFile?, chunkSize: nat, sha256: seq<Byte> -> seq<Byte>)
      returns (r: Result<seq<seq<Byte>>>, ghost done: seq<seq<Byte>>)
      requires file != null ==> file.pos == 0
      modifies this`chunks, file
      ensures file == null ==> r.Err? && done == []
      ensures chunks == old(chunks) + DigestRows(done, sha256)
      ensures forall k :: 0 <= k < |done| ==> 1 <= |done[k]| <= chunkSize
      ensures file != null ==> file.pos <= |file.data| && Concat(done) == file.data[..file.pos]
      ensures r.Ok? ==> r.value == done
      ensures r.Ok? && chunkSize > 0 ==> Concat(r.value) == file.data
      ensures file != null && chunkSize == 0 ==> r == Ok([])
    {
      done := [];
      if file == null {
        return Err("No such file or directory (os error 2)"), done;  // a stand-in for the OS error text
      }
      var acc: seq<seq<Byte>> := [];
      while true
        invariant file.pos <= |file.data|
        invariant acc == done
        invariant Concat(acc) == file.data[..file.pos]
        invariant forall k :: 0 <= k < |acc| ==> 1 <= |acc[k]| <= chunkSize
        invariant chunks == old(chunks) + DigestRows(acc, sha256)
        invariant chunkSize == 0 ==> acc == []
        decreases |file.data| - file.pos
      {
        ghost var before := file.pos;
        var read := file.Read(chunkSize);
        if read.Err? {
          return Err(read.error), done;
        }
        var piece := read.value;
        if |piece| == 0 {
          break;
        }
        var row := ChunkRow(HexEncode(sha256(piece)), None, false);
        ReadStep(file.data, before, file.pos, acc, piece, sha256);
        chunks := chunks + [row];
        acc := acc + [piece];
        done := acc;
      }
      return Ok(acc), done;
    }
  }
}
