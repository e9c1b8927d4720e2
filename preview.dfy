/** The preview list shared by the pages: an upsert keyed by cid and a lookup by cid.
    The updater builds a new list from the previous one; nothing is changed in place. */
module Preview {
  import opened Common
  import opened Types

  /** `list.findIndex(item => item.cid === cid)`: the first position holding `cid`, or -1. */
  function FindIndex<E>(list: seq<PreviewContent<E>>, cid: string): (i: int)
    ensures -1 <= i < |list|
    ensures i >= 0 ==> list[i].cid == cid && forall j :: 0 <= j < i ==> list[j].cid != cid
    ensures i == -1 <==> forall j :: 0 <= j < |list| ==> list[j].cid != cid
  {
    if list == [] then -1
    else if list[0].cid == cid then 0
    else
      var k := FindIndex(list[1..], cid);
      if k == -1 then -1 else k + 1
  }

  /** The updater of `updatePreviewContent`: replace the first entry with this cid, or
      append a new entry when there is none. */
  function Update<E>(list: seq<PreviewContent<E>>, cid: string, element: E, file: FileObject): (r: seq<PreviewContent<E>>)
    ensures PreviewContent(cid, element, file) in r
    ensures (exists j :: 0 <= j < |list| && list[j].cid == cid) ==> |r| == |list|
    ensures (forall j :: 0 <= j < |list| ==> list[j].cid != cid) ==> |r| == |list| + 1
  {
    var i := FindIndex(list, cid);
    var entry := PreviewContent(cid, element, file);
    if i > -1 then
      assert list[i := entry][i] == entry;
      list[i := entry]
    else list + [entry]
  }

  /** `getPreviewByCid`: the first entry with this cid, or nothing. */
  function GetPreviewByCid<E>(list: seq<PreviewContent<E>>, cid: string): (r: Option<PreviewContent<E>>)
    ensures r.None? <==> forall j :: 0 <= j < |list| ==> list[j].cid != cid
    ensures r.Some? ==> r.value.cid == cid && r.value in list
  {
    var i := FindIndex(list, cid);
    if i == -1 then None else Some(list[i])
  }

  /** Every cid occurs at most once. */
  predicate UniqueCids<E>(list: seq<PreviewContent<E>>)
  {
    forall i, j :: 0 <= i < j < |list| ==> list[i].cid != list[j].cid
  }

  /** A cid already present is replaced in place: same length, same position, the first
      matching entry now holds the new element and metadata. */
  lemma UpdateReplacesExisting<E>(list: seq<PreviewContent<E>>, cid: string, element: E, file: FileObject, k: nat)
    requires k < |list| && list[k].cid == cid
    requires forall j :: 0 <= j < k ==> list[j].cid != cid
    ensures Update(list, cid, element, file) == list[k := PreviewContent(cid, element, file)]
  {
  }

  /** An absent cid is appended at the end; the earlier entries stay in place. */
  lemma UpdateAppendsAbsent<E>(list: seq<PreviewContent<E>>, cid: string, element: E, file: FileObject)
    requires forall j :: 0 <= j < |list| ==> list[j].cid != cid
    ensures Update(list, cid, element, file) == list + [PreviewContent(cid, element, file)]
  {
  }

  /** Entries with another cid are untouched, at the same positions. */
  lemma UpdateKeepsOthers<E>(list: seq<PreviewContent<E>>, cid: string, element: E, file: FileObject, j: nat)
    requires j < |list| && list[j].cid != cid
    ensures j < |Update(list, cid, element, file)| && Update(list, cid, element, file)[j] == list[j]
  {
  }

  /** After an update, the lookup finds exactly what was stored. */
  lemma GetAfterUpdate<E>(list: seq<PreviewContent<E>>, cid: string, element: E, file: FileObject)
    ensures GetPreviewByCid(Update(list, cid, element, file), cid) == Some(PreviewContent(cid, element, file))
  {
    var r := Update(list, cid, element, file);
    var i := FindIndex(list, cid);
    var k := FindIndex(r, cid);
    if i > -1 {
      assert r[i].cid == cid;
      assert k == i;
    } else {
      assert r[|list|].cid == cid;
      assert k == |list|;
    }
  }

  /** Lookups of other cids are not affected by an update. */
  lemma GetOtherAfterUpdate<E>(list: seq<PreviewContent<E>>, cid: string, element: E, file: FileObject, other: string)
    requires other != cid
    ensures GetPreviewByCid(Update(list, cid, element, file), other) == GetPreviewByCid(list, other)
  {
    var r := Update(list, cid, element, file);
    var i := FindIndex(list, other);
    var k := FindIndex(r, other);
    forall j | 0 <= j < |list|
      ensures r[j].cid == other <==> list[j].cid == other
    {
      if list[j].cid != cid {
        UpdateKeepsOthers(list, cid, element, file, j);
      }
    }
    if i > -1 {
      assert r[i].cid == other;
      assert k == i;
    } else {
      assert k == -1;
    }
  }

  /** Updating keeps cids unique. */
  lemma UpdateKeepsUnique<E>(list: seq<PreviewContent<E>>, cid: string, element: E, file: FileObject)
    requires UniqueCids(list)
    ensures UniqueCids(Update(list, cid, element, file))
  {
  }

  /** The same update applied twice gives the same list as applied once. */
  lemma UpdateIdempotent<E>(list: seq<PreviewContent<E>>, cid: string, element: E, file: FileObject)
    ensures Update(Update(list, cid, element, file), cid, element, file) == Update(list, cid, element, file)
  {
    var r := Update(list, cid, element, file);
    var i := FindIndex(list, cid);
    var k := FindIndex(r, cid);
    if i > -1 {
      assert r[i].cid == cid;
      assert k == i;
    } else {
      assert r[|list|].cid == cid;
      assert k == |list|;
    }
  }
}
