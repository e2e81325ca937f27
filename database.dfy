/** Chunk identification and deduplicating insertion into the vector store
    (src/core/database.py): `assign_chunk_ids`, the `Database` wrapper seen as
    a set of stored ids, and `add_to_chroma`, each proved against the
    functions of module ChunkIds. */
module CoreDatabase {
  import opened Wrappers
  import opened Sequences
  import opened ChunkIds

  /** assign_chunk_ids: stamps every chunk of the list, in place, with `source:page:index`. */
  method AssignChunkIds(chunks: array<Document>) returns (stamped: array<Document>)
    modifies chunks
    ensures stamped == chunks
    ensures chunks[..] == Stamped(old(chunks[..]))
  {
    ghost var original := chunks[..];
    ghost var target := Stamped(original);
    var lastPageId: Option<string> := None;
    var currentChunkIndex: nat := 0;
    var i := 0;
    while i < chunks.Length
      invariant 0 <= i <= chunks.Length == |original|
      invariant RunCursor(Keys(original), i, lastPageId, currentChunkIndex)
      invariant forall k :: 0 <= k < i ==> chunks[k] == target[k]
      invariant forall k :: i <= k < chunks.Length ==> chunks[k] == original[k]
    {
      var chunk := chunks[i];
      var currentPageId := PageKey(chunk);
      StampedAt(original, i);
      CursorStep(Keys(original), i, lastPageId, currentChunkIndex);
      if lastPageId == Some(currentPageId) {
        currentChunkIndex := currentChunkIndex + 1;
      } else {
        currentChunkIndex := 0;
      }
      var chunkId := ChunkId(currentPageId, currentChunkIndex);
      lastPageId := Some(currentPageId);
      chunks[i] := WithId(chunk, chunkId);
      i := i + 1;
    }
    stamped := chunks;
  }

  // ---------------------------------------------------------------------------
  // The vector store and add_to_chroma
  // ---------------------------------------------------------------------------

  /** The Chroma collection, seen through the ids it holds. Embeddings, texts
      and similarity search are not part of this model. */
  class Database {
    /** The ids persisted in the collection. */
    var storedIds: set<string>
    /** The documents and the ids of every `add_documents` call, in call order. */
    ghost var addCalls: seq<(seq<Document>, seq<string>)>

    /** Opens the persisted collection holding `persisted`. */
    constructor (persisted: set<string>)
      ensures storedIds == persisted && addCalls == []
    {
      storedIds := persisted;
      addCalls := [];
    }

    /** `set(database.get(include=[])['ids'])`: every stored id. */
    method ExistingIds() returns (existing: set<string>)
      ensures existing == storedIds
    {
      existing := storedIds;
    }

    /** `database.add_documents(docs, ids=ids)`: persists each document under its id. */
    method AddDocuments(docs: seq<Document>, ids: seq<string>)
      requires |docs| == |ids|
      modifies this
      ensures storedIds == old(storedIds) + Elements(ids)
      ensures addCalls == old(addCalls) + [(docs, ids)]
    {
      storedIds := storedIds + Elements(ids);
      addCalls := addCalls + [(docs, ids)];
    }
  }

  /** add_to_chroma: stamps the chunks, takes one snapshot of the stored ids,
      keeps the chunks whose id is not in it, and adds those (once, under their
      own ids) if there are any. */
  method AddToChroma(chunks: array<Document>, db: Database)
    modifies chunks, db
    ensures chunks[..] == Stamped(old(chunks[..]))
    ensures var added := SelectNew(Stamped(old(chunks[..])), old(db.storedIds));
      && (forall d :: d in added ==> HasTextId(d))
      && db.storedIds == old(db.storedIds) + Elements(IdsOf(added))
      && db.addCalls == old(db.addCalls) + (if added == [] then [] else [(added, IdsOf(added))])
  {
    ghost var original := chunks[..];
    var chunksWithIds := AssignChunkIds(chunks);
    var existingIds := db.ExistingIds();
    ghost var stamped := chunksWithIds[..];
    var newChunks: seq<Document> := [];
    var i := 0;
    while i < chunksWithIds.Length
      invariant 0 <= i <= chunksWithIds.Length
      invariant chunksWithIds[..] == stamped
      invariant newChunks == SelectNew(stamped[..i], existingIds)
    {
      var chunk := chunksWithIds[i];
      if "id" in chunk.metadata && !(chunk.metadata["id"].Str? && chunk.metadata["id"].text in existingIds) {
        newChunks := newChunks + [chunk];
      }
      assert stamped[..i + 1][..i] == stamped[..i];
      i := i + 1;
    }
    assert stamped[..i] == stamped;
    if newChunks != [] {
      var newChunkIds := IdsOf(newChunks);
      db.AddDocuments(newChunks, newChunkIds);
    }
  }

  /** Ingesting the same chunks twice: the store ends up holding every chunk id,
      and the second call adds nothing, so the call log is what the first call
      left. */
  method ReingestIsNoOp(chunks: array<Document>, db: Database)
    modifies chunks, db
    ensures chunks[..] == Stamped(old(chunks[..]))
    ensures db.storedIds == old(db.storedIds) + Elements(AssignedIds(Keys(old(chunks[..]))))
    ensures var added := SelectNew(Stamped(old(chunks[..])), old(db.storedIds));
      && (forall d :: d in added ==> HasTextId(d))
      && db.addCalls == old(db.addCalls) + (if added == [] then [] else [(added, IdsOf(added))])
  {
    ghost var original, before := chunks[..], db.storedIds;
    AddToChroma(chunks, db);
    ghost var firstCalls := db.addCalls;
    IngestStoresEveryId(original, before);
    StampedIdempotent(original);
    ReingestSelectsNothing(original, before);
    AddToChroma(chunks, db);
    assert db.addCalls == firstCalls;
  }
}
