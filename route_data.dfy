/**
 * The route-data hooks of `apps/www/app/utils/data.ts`: the loader data of a matched route, the
 * project id of the dashboard and the chunks of the chunk list. `useMatches()` becomes the list
 * of matched routes passed in.
 */
module RouteData {
  import opened Wrappers
  import opened Json

  /** A matched route: its id and its loader data (None when the route has no loader). */
  datatype RouteMatch = RouteMatch(id: string, data: Option<Json>)

  const DashboardRoute: string := "routes/_dashboard"
  const ChunksRoute: string := "routes/_dashboard.chunks"

  /** `useMatchesData(id)`: the data of the first matched route with that id. */
  function MatchesData(matches: seq<RouteMatch>, id: string): (r: Option<Json>)
    ensures r.Some? ==> exists k :: 0 <= k < |matches| && matches[k].id == id && matches[k].data == r
                                    && forall j :: 0 <= j < k ==> matches[j].id != id
    ensures (forall k :: 0 <= k < |matches| ==> matches[k].id != id) ==> r.None?
  {
    if |matches| == 0 then None
    else if matches[0].id == id then matches[0].data
    else
      var r := MatchesData(matches[1..], id);
      assert r.Some? ==> exists k :: 0 <= k < |matches| && matches[k].id == id && matches[k].data == r
                                     && forall j :: 0 <= j < k ==> matches[j].id != id
      by {
        if r.Some? {
          var k :| 0 <= k < |matches| - 1 && matches[1..][k].id == id && matches[1..][k].data == r
                   && forall j :: 0 <= j < k ==> matches[1..][j].id != id;
          assert matches[k + 1].id == id && forall j :: 0 <= j < k + 1 ==> matches[j].id != id;
        }
      }
      r
  }

  /** `useProjectId()`: the dashboard's `projectId` when it is a non-empty string. */
  function ProjectId(matches: seq<RouteMatch>): (r: Option<string>)
    ensures r.Some? <==> var data := MatchesData(matches, DashboardRoute);
                         data.Some? && data.value.Get("projectId").Some?
                         && data.value.Get("projectId").value.JString?
                         && data.value.Get("projectId").value.s != ""
    ensures r.Some? ==> MatchesData(matches, DashboardRoute).value.Get("projectId") == Some(JString(r.value))
  {
    var data := MatchesData(matches, DashboardRoute);
    if data.None? || !data.value.Truthy() then None
    else
      match data.value.Get("projectId")
      case Some(JString(p)) => if p == "" then None else Some(p)
      case _ => None
  }

  /** `data?.chunks` when it is a (truthy) array. */
  function Chunks(matches: seq<RouteMatch>): (r: Option<seq<Json>>)
    ensures r.Some? <==> var data := MatchesData(matches, ChunksRoute);
                         data.Some? && data.value.Get("chunks").Some? && data.value.Get("chunks").value.JArray?
    ensures r.Some? ==> MatchesData(matches, ChunksRoute).value.Get("chunks") == Some(JArray(r.value))
  {
    var data := MatchesData(matches, ChunksRoute);
    if data.None? then None
    else
      match data.value.Get("chunks")
      case Some(JArray(items)) => Some(items)
      case _ => None
  }

  /** The `find` predicate of `useChunk`: a truthy object whose `id` is the chunk id. */
  predicate IsChunkWithId(item: Json, chunkId: string) {
    item.Truthy() && (item.JObject? || item.JArray?) && item.Get("id") == Some(JString(chunkId))
  }

  /** `Array.prototype.find` with that predicate. */
  function FindChunk(items: seq<Json>, chunkId: string): (r: Option<Json>)
    ensures r.Some? ==> r.value in items && IsChunkWithId(r.value, chunkId)
    ensures r.None? <==> forall k :: 0 <= k < |items| ==> !IsChunkWithId(items[k], chunkId)
  {
    if |items| == 0 then None
    else if IsChunkWithId(items[0], chunkId) then Some(items[0])
    else
      var r := FindChunk(items[1..], chunkId);
      assert r.None? ==> forall k :: 0 <= k < |items| ==> !IsChunkWithId(items[k], chunkId) by {
        if r.None? {
          forall k | 0 <= k < |items| ensures !IsChunkWithId(items[k], chunkId) {
            if k > 0 { assert items[k] == items[1..][k - 1]; }
          }
        }
      }
      r
  }

  /** `useChunk(chunkId)`: the first chunk of the chunk list with that id. */
  function UseChunk(matches: seq<RouteMatch>, chunkId: string): (r: Option<Json>)
    ensures Chunks(matches).None? ==> r.None?
    ensures r.Some? ==> r.value in Chunks(matches).value && r.value.Get("id") == Some(JString(chunkId))
  {
    match Chunks(matches)
    case None => None
    case Some(items) => FindChunk(items, chunkId)
  }

  /** `it.id` inside `map`: reading a property of `null` throws. */
  function IdOf(item: Json): (r: Result<Option<Json>>)
    ensures r.Err? <==> item.JNull?
    ensures r.Ok? ==> r.value == item.Get("id")
  {
    if item.JNull? then Err("Cannot read properties of null (reading 'id')") else Ok(item.Get("id"))
  }

  function IdsOf(items: seq<Json>): (r: Result<seq<Option<Json>>>)
    ensures r.Err? <==> JNull in items
    ensures r.Ok? ==> |r.value| == |items| && forall k :: 0 <= k < |items| ==> r.value[k] == items[k].Get("id")
  {
    if |items| == 0 then Ok([])
    else
      match IdOf(items[0])
      case Err(e) => Err(e)
      case Ok(id) =>
        match IdsOf(items[1..])
        case Err(e) => assert items == [items[0]] + items[1..]; Err(e)
        case Ok(rest) =>
          assert forall k :: 1 <= k < |items| ==> items[k] == items[1..][k - 1];
          assert items == [items[0]] + items[1..];
          Ok([id] + rest)
  }

  /** `useChunkIds()`: the `id` of every chunk, in order; None without a chunk list. */
  function ChunkIds(matches: seq<RouteMatch>): (r: Option<Result<seq<Option<Json>>>>)
    ensures r.None? <==> Chunks(matches).None?
    ensures r.Some? ==> r.value == IdsOf(Chunks(matches).value)
  {
    match Chunks(matches)
    case None => None
    case Some(items) => Some(IdsOf(items))
  }

  /**
   * For a chunk list of objects, a chunk is found by `useChunk` exactly when its id is among
   * those of `useChunkIds`.
   */
  lemma ChunkFoundIffIdListed(matches: seq<RouteMatch>, chunkId: string)
    requires Chunks(matches).Some?
    requires forall k :: 0 <= k < |Chunks(matches).value| ==> Chunks(matches).value[k].JObject?
    ensures ChunkIds(matches).Some? && ChunkIds(matches).value.Ok?
    ensures UseChunk(matches, chunkId).Some? <==> Some(JString(chunkId)) in ChunkIds(matches).value.value
  {
    var items := Chunks(matches).value;
    ListedIdIsFound(items, chunkId);
    FoundIdIsListed(items, chunkId);
  }

  /** An id listed by `map(it => it.id)` over objects is found by `find`. */
  lemma ListedIdIsFound(items: seq<Json>, chunkId: string)
    requires forall k :: 0 <= k < |items| ==> items[k].JObject?
    ensures IdsOf(items).Ok?
    ensures Some(JString(chunkId)) in IdsOf(items).value ==> FindChunk(items, chunkId).Some?
  {
    var ids := IdsOf(items).value;
    if Some(JString(chunkId)) in ids {
      var k :| 0 <= k < |ids| && ids[k] == Some(JString(chunkId));
      assert IsChunkWithId(items[k], chunkId);
    }
  }

  /** A chunk found by `find` has its id listed by `map(it => it.id)`. */
  lemma FoundIdIsListed(items: seq<Json>, chunkId: string)
    requires forall k :: 0 <= k < |items| ==> items[k].JObject?
    ensures IdsOf(items).Ok?
    ensures FindChunk(items, chunkId).Some? ==> Some(JString(chunkId)) in IdsOf(items).value
  {
    var ids := IdsOf(items).value;
    if FindChunk(items, chunkId).Some? {
      var c := FindChunk(items, chunkId).value;
      var k :| 0 <= k < |items| && items[k] == c;
      assert ids[k] == Some(JString(chunkId));
    }
  }
}
