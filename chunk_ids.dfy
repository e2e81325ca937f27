/** What src/core/database.py computes, as functions on values: the chunk
    key and index, the id format, the stamped list, the selection of new chunks,
    and the properties of each. The methods that change the list and the store
    in place are in module CoreDatabase. */
module ChunkIds {
  import opened Wrappers
  import opened Sequences
  import opened Strings

  // ---------------------------------------------------------------------------
  // Documents and their metadata
  // ---------------------------------------------------------------------------

  /** A metadata value: the loader stores the source path as text and the page number as an integer. */
  datatype Value = Str(text: string) | Int(n: int)

  /** A LangChain Document: its text and its metadata dictionary. */
  datatype Document = Document(pageContent: string, metadata: map<string, Value>)

  /** How a value appears inside an f-string. */
  function Render(v: Value): string
  {
    match v
    case Str(t) => t
    case Int(n) => IntToString(n)
  }

  /** `f'{metadata.get(key)}'`: a missing key renders as "None". */
  function RenderEntry(metadata: map<string, Value>, key: string): string
  {
    if key in metadata then Render(metadata[key]) else "None"
  }

  /** The `source:page` key of a chunk (`current_page_id`). */
  function PageKey(d: Document): string
  {
    Join(":", [RenderEntry(d.metadata, "source"), RenderEntry(d.metadata, "page")])
  }

  /** The keys of a list of chunks, in order. */
  function Keys(docs: seq<Document>): (r: seq<string>)
    ensures |r| == |docs|
  {
    if docs == [] then [] else Keys(docs[..|docs| - 1]) + [PageKey(docs[|docs| - 1])]
  }

  lemma {:induction false} KeysAt(docs: seq<Document>, i: nat)
    requires i < |docs|
    ensures Keys(docs)[i] == PageKey(docs[i])
    decreases |docs|
  {
    if i < |docs| - 1 {
      KeysAt(docs[..|docs| - 1], i);
    }
  }

  // ---------------------------------------------------------------------------
  // Chunk indices and ids
  // ---------------------------------------------------------------------------

  /** The chunk index given to position `i`: 0 when its key differs from the
      previous chunk's key (or there is no previous chunk), one more than the
      previous index otherwise. */
  function RunIndex(keys: seq<string>, i: nat): (r: nat)
    requires i < |keys|
    ensures r <= i
    decreases i
  {
    if i == 0 || keys[i] != keys[i - 1] then 0 else RunIndex(keys, i - 1) + 1
  }

  /** `k` is the offset of position `i` inside the maximal run of equal keys that contains it. */
  ghost predicate IsRunPosition(keys: seq<string>, i: nat, k: nat)
    requires i < |keys|
  {
    && k <= i
    && (forall j :: i - k <= j <= i ==> keys[j] == keys[i])
    && (i - k == 0 || keys[i - k - 1] != keys[i])
  }

  lemma {:induction false} RunIndexIsARunPosition(keys: seq<string>, i: nat)
    requires i < |keys|
    ensures IsRunPosition(keys, i, RunIndex(keys, i))
    decreases i
  {
    if i > 0 && keys[i] == keys[i - 1] {
      RunIndexIsARunPosition(keys, i - 1);
    }
  }

  /** The chunk index is exactly the chunk's position within its run of equal `source:page` keys. */
  lemma RunIndexIsRunPosition(keys: seq<string>, i: nat, k: nat)
    requires i < |keys|
    ensures RunIndex(keys, i) == k <==> IsRunPosition(keys, i, k)
  {
    RunIndexIsARunPosition(keys, i);
  }

  /** A run of equal keys from `i` to `j` carries consecutive indices. */
  lemma RunIndexAlongRun(keys: seq<string>, i: nat, j: nat)
    requires i <= j < |keys|
    requires forall m :: i <= m <= j ==> keys[m] == keys[i]
    ensures RunIndex(keys, j) == RunIndex(keys, i) + (j - i)
  {
    var ki := RunIndex(keys, i);
    RunIndexIsARunPosition(keys, i);
    assert IsRunPosition(keys, j, ki + (j - i));
    RunIndexIsRunPosition(keys, j, ki + (j - i));
  }

  /** `f'{key}:{index}'` */
  function ChunkId(key: string, index: nat): string
  {
    key + ":" + NatToString(index)
  }

  /** The position of the last ':' in `s`, if any. */
  function LastColon(s: string): (r: Option<nat>)
    ensures r.Some? ==> r.value < |s| && s[r.value] == ':' && forall k :: r.value < k < |s| ==> s[k] != ':'
    ensures r.None? ==> forall k :: 0 <= k < |s| ==> s[k] != ':'
    decreases |s|
  {
    if s == [] then None
    else if s[|s| - 1] == ':' then Some(|s| - 1)
    else LastColon(s[..|s| - 1])
  }

  /** Reads an id back into its page key and chunk index, splitting at the last ':'. */
  function ParseChunkId(id: string): Option<(string, int)>
  {
    match LastColon(id)
    case None => None
    case Some(p) =>
      var digits := id[p + 1..];
      if digits != [] && forall k :: 0 <= k < |digits| ==> IsDigit(digits[k])
      then Some((id[..p], ParseDigits(digits)))
      else None
  }

  /** An id determines its key and index: the index is all digits, so the last ':' is the separator. */
  lemma ChunkIdRoundTrip(key: string, index: nat)
    ensures ParseChunkId(ChunkId(key, index)) == Some((key, index))
  {
    var id, digits := ChunkId(key, index), NatToString(index);
    NatToStringIsDigits(index);
    assert id[|key|] == ':';
    forall k | |key| < k < |id| ensures id[k] != ':' {
      assert id[k] == digits[k - |key| - 1];
    }
    assert LastColon(id) == Some(|key|);
    assert id[..|key|] == key && id[|key| + 1..] == digits;
    ParseNatToString(index);
  }

  lemma ChunkIdInjective(key1: string, index1: nat, key2: string, index2: nat)
    requires ChunkId(key1, index1) == ChunkId(key2, index2)
    ensures key1 == key2 && index1 == index2
  {
    ChunkIdRoundTrip(key1, index1);
    ChunkIdRoundTrip(key2, index2);
  }

  /** The ids assign_chunk_ids gives to chunks with these keys, in order. */
  function AssignedIds(keys: seq<string>): (r: seq<string>)
    ensures |r| == |keys|
  {
    if keys == [] then []
    else AssignedIds(keys[..|keys| - 1]) + [ChunkId(keys[|keys| - 1], RunIndex(keys, |keys| - 1))]
  }

  /** The index of a position depends only on the keys up to it. */
  lemma {:induction false} RunIndexOfPrefix(keys: seq<string>, n: nat, i: nat)
    requires i < n <= |keys|
    ensures RunIndex(keys[..n], i) == RunIndex(keys, i)
    decreases i
  {
    if i > 0 {
      RunIndexOfPrefix(keys, n, i - 1);
    }
  }

  /** Position `i` gets the id `key:index` of its own key and run index. */
  lemma {:induction false} AssignedIdsAt(keys: seq<string>, i: nat)
    requires i < |keys|
    ensures AssignedIds(keys)[i] == ChunkId(keys[i], RunIndex(keys, i))
    decreases |keys|
  {
    var front := keys[..|keys| - 1];
    if i < |front| {
      AssignedIdsAt(front, i);
      RunIndexOfPrefix(keys, |front|, i);
    }
  }

  /** `metadata['id'] = id` */
  function WithId(d: Document, id: string): Document
  {
    d.(metadata := d.metadata["id" := Str(id)])
  }

  predicate HasTextId(d: Document)
  {
    "id" in d.metadata && d.metadata["id"].Str?
  }

  function IdText(d: Document): string
    requires HasTextId(d)
  {
    d.metadata["id"].text
  }

  function IdsOf(docs: seq<Document>): seq<string>
    requires forall d :: d in docs ==> HasTextId(d)
  {
    seq(|docs|, i requires 0 <= i < |docs| => IdText(docs[i]))
  }

  /** The chunks as assign_chunk_ids leaves them: each stamped with the id of its position. */
  function Stamped(docs: seq<Document>): (r: seq<Document>)
    ensures |r| == |docs|
    ensures forall d :: d in r ==> HasTextId(d)
  {
    WithIds(docs, AssignedIds(Keys(docs)))
  }

  /** Each document stamped with the id at the same position. */
  function WithIds(docs: seq<Document>, ids: seq<string>): (r: seq<Document>)
    requires |ids| == |docs|
    ensures |r| == |docs|
    ensures forall d :: d in r ==> HasTextId(d)
  {
    if docs == [] then [] else WithIds(docs[..|docs| - 1], ids[..|ids| - 1]) + [WithId(docs[|docs| - 1], ids[|ids| - 1])]
  }

  lemma {:induction false} WithIdsAt(docs: seq<Document>, ids: seq<string>, i: nat)
    requires |ids| == |docs| && i < |docs|
    ensures WithIds(docs, ids)[i] == WithId(docs[i], ids[i])
    decreases |docs|
  {
    if i < |docs| - 1 {
      WithIdsAt(docs[..|docs| - 1], ids[..|ids| - 1], i);
    }
  }

  // ---------------------------------------------------------------------------
  // Properties of the ids
  // ---------------------------------------------------------------------------

  /** Chunk `i` comes out stamped with the id of its own key and run index. */
  lemma StampedAt(docs: seq<Document>, i: nat)
    requires i < |docs|
    ensures Keys(docs)[i] == PageKey(docs[i])
    ensures Stamped(docs)[i] == WithId(docs[i], ChunkId(Keys(docs)[i], RunIndex(Keys(docs), i)))
  {
    KeysAt(docs, i);
    AssignedIdsAt(Keys(docs), i);
    WithIdsAt(docs, AssignedIds(Keys(docs)), i);
  }

  /** What the stamping loop remembers after its first `i` chunks: the key of
      the last chunk seen (none before the first) and that chunk's run index. */
  ghost predicate RunCursor(keys: seq<string>, i: nat, lastKey: Option<string>, lastIndex: nat)
    requires i <= |keys|
  {
    if i == 0 then lastKey == None
    else lastKey == Some(keys[i - 1]) && lastIndex == RunIndex(keys, i - 1)
  }

  /** One step of the stamping loop: from the cursor before position `i`, the
      index the loop computes is the run index of `i`, and the cursor moves past it. */
  lemma CursorStep(keys: seq<string>, i: nat, lastKey: Option<string>, lastIndex: nat)
    requires i < |keys| && RunCursor(keys, i, lastKey, lastIndex)
    ensures var index := if lastKey == Some(keys[i]) then lastIndex + 1 else 0;
      && index == RunIndex(keys, i)
      && RunCursor(keys, i + 1, Some(keys[i]), index)
  {
  }

  /** The list keeps its length, order and texts; only `metadata['id']` is written, with the id of the chunk's position. */
  lemma StampedOnlyWritesId(docs: seq<Document>)
    ensures |Stamped(docs)| == |docs|
    ensures forall i :: 0 <= i < |docs| ==>
      && Stamped(docs)[i].pageContent == docs[i].pageContent
      && Stamped(docs)[i].metadata.Keys == docs[i].metadata.Keys + {"id"}
      && (forall key :: key in docs[i].metadata && key != "id" ==> Stamped(docs)[i].metadata[key] == docs[i].metadata[key])
      && Stamped(docs)[i].metadata["id"] == Str(ChunkId(PageKey(docs[i]), RunIndex(Keys(docs), i)))
  {
    forall i | 0 <= i < |docs| {
      StampedAt(docs, i);
    }
  }

  /** The first chunk always gets index 0. */
  lemma FirstChunkIndexIsZero(docs: seq<Document>)
    requires docs != []
    ensures IdText(Stamped(docs)[0]) == PageKey(docs[0]) + ":0"
  {
    StampedAt(docs, 0);
    assert NatToString(0) == "0";
  }

  /** Ids depend only on the sequence of `source:page` keys, not on the chunks' texts. */
  lemma IdsDependOnlyOnKeys(docs1: seq<Document>, docs2: seq<Document>)
    requires Keys(docs1) == Keys(docs2)
    ensures IdsOf(Stamped(docs1)) == IdsOf(Stamped(docs2))
  {
    forall i | 0 <= i < |docs1| ensures IdsOf(Stamped(docs1))[i] == IdsOf(Stamped(docs2))[i] {
      WithIdsAt(docs1, AssignedIds(Keys(docs1)), i);
      WithIdsAt(docs2, AssignedIds(Keys(docs2)), i);
    }
  }

  /** Stamping never changes a chunk's key: `id` is neither `source` nor `page`. */
  lemma KeysOfStamped(docs: seq<Document>)
    ensures Keys(Stamped(docs)) == Keys(docs)
  {
    var once := Stamped(docs);
    forall i | 0 <= i < |docs| ensures Keys(once)[i] == Keys(docs)[i] {
      StampedAt(docs, i);
      KeysAt(once, i);
      KeysAt(docs, i);
    }
  }

  /** Running assign_chunk_ids a second time changes nothing. */
  lemma StampedIdempotent(docs: seq<Document>)
    ensures Stamped(Stamped(docs)) == Stamped(docs)
  {
    var once := Stamped(docs);
    KeysOfStamped(docs);
    forall i | 0 <= i < |docs| ensures Stamped(once)[i] == once[i] {
      StampedAt(docs, i);
      StampedAt(once, i);
    }
  }

  ghost predicate Distinct(ids: seq<string>)
  {
    forall i, j :: 0 <= i < j < |ids| ==> ids[i] != ids[j]
  }

  /** Each key occupies a single contiguous run: it never comes back after a different key. */
  ghost predicate RunsContiguous(keys: seq<string>)
  {
    forall i, m, j :: 0 <= i < m < j < |keys| && keys[i] == keys[j] ==> keys[m] == keys[i]
  }

  /** A key that comes back after a different key restarts at index 0 and repeats the id of its first run. */
  lemma RecurringKeyCollides(keys: seq<string>, i: nat, m: nat, j: nat)
    requires i < m < j < |keys| && keys[i] == keys[j] && keys[m] != keys[i]
    ensures i - RunIndex(keys, i) < j - RunIndex(keys, j)
    ensures AssignedIds(keys)[i - RunIndex(keys, i)] == AssignedIds(keys)[j - RunIndex(keys, j)]
  {
    var p, q := i - RunIndex(keys, i), j - RunIndex(keys, j);
    RunIndexIsARunPosition(keys, i);
    RunIndexIsARunPosition(keys, j);
    assert keys[p] == keys[i] && keys[q] == keys[j];
    assert m < q by {
      assert keys[m] != keys[j];
    }
    RunIndexIsRunPosition(keys, p, 0);
    RunIndexIsRunPosition(keys, q, 0);
    AssignedIdsAt(keys, p);
    AssignedIdsAt(keys, q);
  }

  /** The promised uniqueness of ids holds exactly when every key forms one contiguous run. */
  lemma UniqueIdsIffRunsContiguous(keys: seq<string>)
    ensures Distinct(AssignedIds(keys)) <==> RunsContiguous(keys)
  {
    var ids := AssignedIds(keys);
    if RunsContiguous(keys) {
      forall i, j | 0 <= i < j < |ids| ensures ids[i] != ids[j] {
        AssignedIdsAt(keys, i);
        AssignedIdsAt(keys, j);
        if ids[i] == ids[j] {
          ChunkIdInjective(keys[i], RunIndex(keys, i), keys[j], RunIndex(keys, j));
          RunIndexAlongRun(keys, i, j);
          assert false;
        }
      }
    } else {
      var i, m, j :| 0 <= i < m < j < |keys| && keys[i] == keys[j] && keys[m] != keys[i];
      RecurringKeyCollides(keys, i, m, j);
    }
  }

  /** Two chunks of page 1, one of page 2, then page 1 again: the index counts
      up inside a run, restarts on a new key, and the returning key repeats an id. */
  lemma AssignedIdsExample()
    ensures AssignedIds(["a.pdf:1", "a.pdf:1", "a.pdf:2", "a.pdf:1"]) ==
            ["a.pdf:1:0", "a.pdf:1:1", "a.pdf:2:0", "a.pdf:1:0"]
  {
    var keys: seq<string> := ["a.pdf:1", "a.pdf:1", "a.pdf:2", "a.pdf:1"];
    assert keys[1] != keys[2] && keys[2] != keys[3] by {
      assert keys[1][6] != keys[2][6];
    }
    assert NatToString(0) == "0" && NatToString(1) == "1";
    assert RunIndex(keys, 0) == 0 && RunIndex(keys, 1) == 1 && RunIndex(keys, 2) == 0 && RunIndex(keys, 3) == 0;
    var ids := AssignedIds(keys);
    AssignedIdsAt(keys, 0);
    AssignedIdsAt(keys, 1);
    AssignedIdsAt(keys, 2);
    AssignedIdsAt(keys, 3);
    assert ids[0] == "a.pdf:1:0" && ids[1] == "a.pdf:1:1" && ids[2] == "a.pdf:2:0" && ids[3] == "a.pdf:1:0";
  }

  // ---------------------------------------------------------------------------
  // Selection of new chunks
  // ---------------------------------------------------------------------------

  /** add_to_chroma keeps a chunk when it has an id that is not among the existing ids. */
  predicate IsNew(d: Document, existing: set<string>)
  {
    "id" in d.metadata && !(d.metadata["id"].Str? && d.metadata["id"].text in existing)
  }

  /** The `new_chunks` of add_to_chroma: the new chunks, in list order. */
  function SelectNew(chunks: seq<Document>, existing: set<string>): (r: seq<Document>)
    ensures forall d :: d in r <==> d in chunks && IsNew(d, existing)
  {
    FilterMembers(chunks, d => IsNew(d, existing));
    Filter(chunks, d => IsNew(d, existing))
  }

  // ---------------------------------------------------------------------------
  // Properties of the deduplication
  // ---------------------------------------------------------------------------

  /** A stamped chunk is selected exactly when its id is not in the snapshot. */
  lemma StampedIsNewIff(docs: seq<Document>, existing: set<string>, i: nat)
    requires i < |docs|
    ensures IsNew(Stamped(docs)[i], existing) <==> AssignedIds(Keys(docs))[i] !in existing
  {
    WithIdsAt(docs, AssignedIds(Keys(docs)), i);
  }

  /** The chunks selected for insertion are exactly those whose id is not in the
      snapshot, in their original order, each as often as it occurs: a repeated
      id inside one batch is not removed. */
  lemma SelectedAreExactlyUnseen(docs: seq<Document>, existing: set<string>)
    ensures IsSubsequence(SelectNew(Stamped(docs), existing), Stamped(docs))
    ensures forall d :: multiset(SelectNew(Stamped(docs), existing))[d] ==
                       (if IsNew(d, existing) then multiset(Stamped(docs))[d] else 0)
    ensures forall d :: d in SelectNew(Stamped(docs), existing) <==> d in Stamped(docs) && IsNew(d, existing)
  {
    FilterIsSubsequence(Stamped(docs), d => IsNew(d, existing));
    FilterMultiset(Stamped(docs), d => IsNew(d, existing));
    FilterMembers(Stamped(docs), d => IsNew(d, existing));
  }

  /** The ids passed to `add_documents` are exactly the chunk ids missing from the snapshot. */
  lemma AddedIdsAreUnseenIds(docs: seq<Document>, existing: set<string>)
    ensures var added := SelectNew(Stamped(docs), existing);
      && (forall d :: d in added ==> HasTextId(d))
      && Elements(IdsOf(added)) == Elements(AssignedIds(Keys(docs))) - existing
  {
    AddedIdsAreUnseen(docs, existing);
    UnseenIdsAreAdded(docs, existing);
  }

  lemma AddedIdsAreUnseen(docs: seq<Document>, existing: set<string>)
    ensures var added := SelectNew(Stamped(docs), existing);
      forall x :: x in IdsOf(added) ==> x in AssignedIds(Keys(docs)) && x !in existing
  {
    var added := SelectNew(Stamped(docs), existing);
    forall x | x in IdsOf(added) ensures x in AssignedIds(Keys(docs)) && x !in existing {
      var k :| 0 <= k < |added| && IdsOf(added)[k] == x;
      SelectedIdIsUnseen(docs, existing, added[k]);
    }
  }

  lemma SelectedIdIsUnseen(docs: seq<Document>, existing: set<string>, d: Document)
    requires d in SelectNew(Stamped(docs), existing)
    ensures HasTextId(d) && IdText(d) in AssignedIds(Keys(docs)) && IdText(d) !in existing
  {
    var stamped, ids := Stamped(docs), AssignedIds(Keys(docs));
    var i :| 0 <= i < |stamped| && stamped[i] == d;
    WithIdsAt(docs, ids, i);
  }

  lemma UnseenIdsAreAdded(docs: seq<Document>, existing: set<string>)
    ensures var added := SelectNew(Stamped(docs), existing);
      forall x :: x in AssignedIds(Keys(docs)) && x !in existing ==> x in IdsOf(added)
  {
    var stamped, ids := Stamped(docs), AssignedIds(Keys(docs));
    var added := SelectNew(stamped, existing);
    forall x | x in ids && x !in existing ensures x in IdsOf(added) {
      var i :| 0 <= i < |ids| && ids[i] == x;
      WithIdsAt(docs, ids, i);
      assert stamped[i] in added;
      var k :| 0 <= k < |added| && added[k] == stamped[i];
      assert IdsOf(added)[k] == x;
    }
  }

  /** After add_to_chroma the store holds the old ids together with every chunk id. */
  lemma IngestStoresEveryId(docs: seq<Document>, existing: set<string>)
    ensures var added := SelectNew(Stamped(docs), existing);
      && (forall d :: d in added ==> HasTextId(d))
      && existing + Elements(IdsOf(added)) == existing + Elements(AssignedIds(Keys(docs)))
  {
    AddedIdsAreUnseenIds(docs, existing);
  }

  /** Once every id of the stamped chunks is stored, nothing is selected. */
  lemma ReingestSelectsNothing(docs: seq<Document>, existing: set<string>)
    ensures SelectNew(Stamped(docs), existing + Elements(AssignedIds(Keys(docs)))) == []
  {
    var stamped, ids := Stamped(docs), AssignedIds(Keys(docs));
    var stored := existing + Elements(ids);
    forall d | d in stamped ensures !IsNew(d, stored) {
      var i :| 0 <= i < |stamped| && stamped[i] == d;
      WithIdsAt(docs, ids, i);
      assert ids[i] in Elements(ids);
    }
    FilterNone(stamped, d => IsNew(d, stored));
  }
}
