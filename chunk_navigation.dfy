/**
 * The "next" and "previous" buttons of `apps/www/app/components/GoToNextChunk.tsx` and
 * `GoToPreviousChunk.tsx`: cyclic movement through the list of chunk ids.
 */
module ChunkNavigation {
  import opened Wrappers

  /** What a click does: nothing, or a navigation and, when a callback is given, a call of it. */
  datatype Effect = NoEffect | Navigated(path: string, notified: Option<string>)

  /** `chunkIds.findIndex(id => id === current)`, None for -1. */
  function FindIndex(ids: seq<string>, current: string): (r: Option<nat>)
    ensures r.Some? ==> r.value < |ids| && ids[r.value] == current
                        && forall j :: 0 <= j < r.value ==> ids[j] != current
    ensures r.None? <==> current !in ids
  {
    if |ids| == 0 then None
    else if ids[0] == current then Some(0)
    else match FindIndex(ids[1..], current)
      case None => None
      case Some(k) => Some(k + 1)
  }

  /** The index after `i`, wrapping from the last to the first. */
  function NextIndex(i: nat, n: nat): (r: nat)
    requires i < n
    ensures r < n
    ensures i + 1 < n ==> r == i + 1
    ensures i + 1 == n ==> r == 0
  {
    (i + 1) % n
  }

  /** The index before `i`, wrapping from the first to the last. */
  function PreviousIndex(i: nat, n: nat): (r: nat)
    requires i < n
    ensures r < n
    ensures i > 0 ==> r == i - 1
    ensures i == 0 ==> r == n - 1
  {
    (i - 1 + n) % n
  }

  /** Stepping back after stepping forward, and forward after back, returns to the index. */
  lemma PreviousUndoesNext(i: nat, n: nat)
    requires i < n
    ensures PreviousIndex(NextIndex(i, n), n) == i
    ensures NextIndex(PreviousIndex(i, n), n) == i
  {
  }

  function ChunkPath(id: string): string {
    "/chunks/" + id
  }

  /** `onNext`; `notify` says whether `onNavigateNext` was passed. */
  function OnNext(chunkIds: seq<string>, currentChunkId: string, notify: bool): (e: Effect)
    ensures currentChunkId == "" || currentChunkId !in chunkIds ==> e == NoEffect
    ensures e.Navigated? ==> exists k :: 0 <= k < |chunkIds| && e.path == ChunkPath(chunkIds[k])
                                         && e.notified == (if notify then Some(chunkIds[k]) else None)
  {
    if currentChunkId == "" then NoEffect
    else match FindIndex(chunkIds, currentChunkId)
      case None => NoEffect
      case Some(i) =>
        var nextChunkId := chunkIds[NextIndex(i, |chunkIds|)];
        Navigated(ChunkPath(nextChunkId), if notify then Some(nextChunkId) else None)
  }

  /** `onPrevious`; `notify` says whether `onNavigatePrevious` was passed. */
  function OnPrevious(chunkIds: seq<string>, currentChunkId: string, notify: bool): (e: Effect)
    ensures currentChunkId == "" || currentChunkId !in chunkIds ==> e == NoEffect
    ensures e.Navigated? ==> exists k :: 0 <= k < |chunkIds| && e.path == ChunkPath(chunkIds[k])
                                         && e.notified == (if notify then Some(chunkIds[k]) else None)
  {
    if currentChunkId == "" then NoEffect
    else match FindIndex(chunkIds, currentChunkId)
      case None => NoEffect
      case Some(i) =>
        var previousChunkId := chunkIds[PreviousIndex(i, |chunkIds|)];
        Navigated(ChunkPath(previousChunkId), if notify then Some(previousChunkId) else None)
  }

  predicate Distinct(ids: seq<string>) {
    forall i, j :: 0 <= i < j < |ids| ==> ids[i] != ids[j]
  }

  /** With distinct ids, the next of the `i`th id is the one after it, cyclically. */
  lemma NextOfIndex(chunkIds: seq<string>, i: nat, notify: bool)
    requires Distinct(chunkIds) && i < |chunkIds| && chunkIds[i] != ""
    ensures var next := chunkIds[NextIndex(i, |chunkIds|)];
            OnNext(chunkIds, chunkIds[i], notify) == Navigated(ChunkPath(next), if notify then Some(next) else None)
  {
    var k := FindIndex(chunkIds, chunkIds[i]).value;
    assert k == i;
  }

  lemma PreviousOfIndex(chunkIds: seq<string>, i: nat, notify: bool)
    requires Distinct(chunkIds) && i < |chunkIds| && chunkIds[i] != ""
    ensures var prev := chunkIds[PreviousIndex(i, |chunkIds|)];
            OnPrevious(chunkIds, chunkIds[i], notify) == Navigated(ChunkPath(prev), if notify then Some(prev) else None)
  {
    var k := FindIndex(chunkIds, chunkIds[i]).value;
    assert k == i;
  }

  /** The last id wraps to the first and the first back to the last. */
  lemma EndsWrapAround(chunkIds: seq<string>)
    requires Distinct(chunkIds) && |chunkIds| > 0
    requires chunkIds[0] != "" && chunkIds[|chunkIds| - 1] != ""
    ensures OnNext(chunkIds, chunkIds[|chunkIds| - 1], false) == Navigated(ChunkPath(chunkIds[0]), None)
    ensures OnPrevious(chunkIds, chunkIds[0], false) == Navigated(ChunkPath(chunkIds[|chunkIds| - 1]), None)
  {
    NextOfIndex(chunkIds, |chunkIds| - 1, false);
    PreviousOfIndex(chunkIds, 0, false);
  }

  /** A single chunk leads to itself both ways. */
  lemma SingleChunkStays(id: string)
    requires id != ""
    ensures OnNext([id], id, true) == Navigated(ChunkPath(id), Some(id))
    ensures OnPrevious([id], id, true) == Navigated(ChunkPath(id), Some(id))
  {
  }

  /** With distinct ids, "previous" after "next" brings the user back to the chunk they left. */
  lemma PreviousAfterNextReturns(chunkIds: seq<string>, i: nat)
    requires Distinct(chunkIds) && i < |chunkIds| && forall k :: 0 <= k < |chunkIds| ==> chunkIds[k] != ""
    ensures var next := chunkIds[NextIndex(i, |chunkIds|)];
            OnPrevious(chunkIds, next, false) == Navigated(ChunkPath(chunkIds[i]), None)
  {
    var j := NextIndex(i, |chunkIds|);
    PreviousOfIndex(chunkIds, j, false);
    PreviousUndoesNext(i, |chunkIds|);
  }
}
