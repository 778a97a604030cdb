/**
 * The chunk list of the dashboard, `apps/www/app/routes/_dashboard.chunks.tsx`: the loader adds
 * to every chunk of the logged-in project the file path its id encodes, and the page renders the
 * list with separators and the selected chunk. The chunk query is a parameter.
 */
module DashboardChunks {
  import opened Wrappers
  import Utf8
  import Base64
  import Session

  /** The columns of a chunk the page reads; the timestamps are kept opaque. */
  datatype Chunk = Chunk(id: string, data: string, projectId: string, createdAt: int, updatedAt: int)

  /** `{...it, filePath}`: every field of the chunk plus its file path. */
  datatype ChunkView = ChunkView(chunk: Chunk, filePath: string)

  datatype Loaded =
    | Thrown(response: Session.Response)
    | ChunksMissing
    | Page(projectId: string, chunks: seq<ChunkView>)

  /** `Buffer.from(id, 'base64').toString('utf-8')`. */
  function FilePathOf(id: string): string {
    Utf8.Decode(Base64.Decode(id))
  }

  /** The id the CLI's `publish` gives a file: `Buffer.from(file, 'utf8').toString('base64')`. */
  function PublishedId(file: string): string {
    Base64.Encode(Utf8.Encode(file))
  }

  /** The page shows the path a chunk was published from. */
  lemma FilePathOfPublishedId(file: string)
    ensures FilePathOf(PublishedId(file)) == file
  {
    Base64.DecodeEncode(Utf8.Encode(file));
    Utf8.DecodeEncode(file);
  }

  function Views(chunks: seq<Chunk>): (r: seq<ChunkView>)
    ensures |r| == |chunks|
    ensures forall k :: 0 <= k < |chunks| ==> r[k].chunk == chunks[k] && r[k].filePath == FilePathOf(chunks[k].id)
  {
    if |chunks| == 0 then [] else [ChunkView(chunks[0], FilePathOf(chunks[0].id))] + Views(chunks[1..])
  }

  /**
   * `loader`: the project id from the session guard (which may throw its redirect), then the
   * project's chunks with their file paths. `chunksByProjectId` returns None for `null`, on
   * which `map` throws.
   */
  function Loader(session: map<string, string>, pathname: string,
                  chunksByProjectId: string -> Option<seq<Chunk>>): (r: Loaded)
    ensures Session.RequireProjectId(session, pathname, None).Thrown? ==>
              r == Thrown(Session.RequireProjectId(session, pathname, None).response)
    ensures r.Page? ==> Session.RequireProjectId(session, pathname, None) == Session.Allowed(r.projectId)
                        && chunksByProjectId(r.projectId).Some?
                        && r.chunks == Views(chunksByProjectId(r.projectId).value)
    ensures r.ChunksMissing? <==> Session.RequireProjectId(session, pathname, None).Allowed?
                                  && chunksByProjectId(Session.RequireProjectId(session, pathname, None).projectId).None?
  {
    match Session.RequireProjectId(session, pathname, None)
    case Thrown(response) => Thrown(response)
    case Allowed(projectId) =>
      match chunksByProjectId(projectId)
      case None => ChunksMissing
      case Some(chunks) => Page(projectId, Views(chunks))
  }

  /** A row of the rendered list. */
  datatype Row = Message(text: string) | Item(id: string, filePath: string, data: string, isSelected: bool) | Separator

  const NoChunksMessage: string := "No chunks published"

  /** The rows of one item at `index`: the item, then a separator unless it is the last. */
  function ItemRows(chunks: seq<ChunkView>, index: nat, chunkId: Option<string>): seq<Row>
    requires index < |chunks|
  {
    var it := chunks[index];
    [Item(it.chunk.id, it.filePath, it.chunk.data, chunkId == Some(it.chunk.id))]
    + (if |chunks| - 1 != index then [Separator] else [])
  }

  /** `chunks.map(...)` from `index` on. */
  function RowsFrom(chunks: seq<ChunkView>, index: nat, chunkId: Option<string>): seq<Row>
    requires index <= |chunks|
    decreases |chunks| - index
  {
    if index == |chunks| then [] else ItemRows(chunks, index, chunkId) + RowsFrom(chunks, index + 1, chunkId)
  }

  /** The list part of the page; `chunkId` is the route parameter, None when absent. */
  function Rows(chunks: seq<ChunkView>, chunkId: Option<string>): seq<Row> {
    if |chunks| == 0 then [Message(NoChunksMessage)] else RowsFrom(chunks, 0, chunkId)
  }

  /** The shape of the rows from `index`: items at even offsets, separators between them. */
  lemma {:induction false} RowsFromShape(chunks: seq<ChunkView>, index: nat, chunkId: Option<string>)
    requires index < |chunks|
    ensures var rows := RowsFrom(chunks, index, chunkId);
            && |rows| == 2 * (|chunks| - index) - 1
            && (forall j :: 0 <= j < |rows| && j % 2 == 1 ==> rows[j] == Separator)
            && (forall j :: 0 <= j < |rows| && j % 2 == 0 ==>
                  var it := chunks[index + j / 2];
                  rows[j] == Item(it.chunk.id, it.filePath, it.chunk.data, chunkId == Some(it.chunk.id)))
    decreases |chunks| - index
  {
    var head := ItemRows(chunks, index, chunkId);
    if index + 1 < |chunks| {
      RowsFromShape(chunks, index + 1, chunkId);
      var rest := RowsFrom(chunks, index + 1, chunkId);
      var rows := head + rest;
      assert |head| == 2;
      forall j | 2 <= j < |rows| ensures rows[j] == rest[j - 2] {}
      assert forall j :: 2 <= j < |rows| ==> (j - 2) / 2 == j / 2 - 1 && (j - 2) % 2 == j % 2;
    } else {
      assert RowsFrom(chunks, index + 1, chunkId) == [];
      assert RowsFrom(chunks, index, chunkId) == head;
    }
  }

  /**
   * An empty list shows only the message; otherwise there is one item per chunk in order,
   * a separator between consecutive items and none after the last, and an item is selected
   * exactly when the route's chunk id is its id.
   */
  lemma RowsShape(chunks: seq<ChunkView>, chunkId: Option<string>)
    ensures |chunks| == 0 ==> Rows(chunks, chunkId) == [Message(NoChunksMessage)]
    ensures |chunks| > 0 ==>
              var rows := Rows(chunks, chunkId);
              && |rows| == 2 * |chunks| - 1
              && rows[|rows| - 1].Item?
              && (forall k :: 0 <= k < |chunks| ==>
                    rows[2 * k] == Item(chunks[k].chunk.id, chunks[k].filePath, chunks[k].chunk.data,
                                        chunkId == Some(chunks[k].chunk.id)))
              && (forall k :: 0 <= k < |chunks| - 1 ==> rows[2 * k + 1] == Separator)
  {
    if |chunks| > 0 {
      RowsFromShape(chunks, 0, chunkId);
      var rows := Rows(chunks, chunkId);
      assert (|rows| - 1) % 2 == 0;
      forall k | 0 <= k < |chunks| ensures (2 * k) / 2 == k && (2 * k) % 2 == 0 {}
      forall k | 0 <= k < |chunks| - 1 ensures (2 * k + 1) % 2 == 1 {}
    }
  }
}
