/**
 * The API server's database as the controllers under `app/src/controllers/` use it: a `chunks`
 * table and a `projects` table, each keyed by a serial id. `findFirst` yields the matching row
 * with the smallest id.
 */
module ServerDb {
  import opened Wrappers

  datatype ChunkRow = ChunkRow(name: string, data: string, projectId: nat)

  datatype ProjectRow = ProjectRow(name: string, readKey: string, writeKey: string,
                                   publicKey: string, privateKey: string)

  /** A row of a query result, with its id. */
  datatype ChunkRecord = ChunkRecord(id: nat, row: ChunkRow)

  /** `findFirst({where: eq(chunks.name, name)})` over the ids `from .. upto - 1`. */
  function FirstByName(rows: map<nat, ChunkRow>, name: string, from: nat, upto: nat): (r: Option<nat>)
    ensures r.Some? ==> from <= r.value < upto && r.value in rows && rows[r.value].name == name
    ensures r.Some? ==> forall j :: from <= j < r.value && j in rows ==> rows[j].name != name
    ensures r.None? ==> forall j :: from <= j < upto && j in rows ==> rows[j].name != name
    decreases upto - from
  {
    if from >= upto then None
    else if from in rows && rows[from].name == name then Some(from)
    else FirstByName(rows, name, from + 1, upto)
  }

  /** `update(chunks).set({data}).where(eq(chunks.name, name))`. */
  function SetDataByName(rows: map<nat, ChunkRow>, name: string, data: string): (r: map<nat, ChunkRow>)
    ensures r.Keys == rows.Keys
    ensures forall k :: k in rows && rows[k].name == name ==> r[k] == rows[k].(data := data)
    ensures forall k :: k in rows && rows[k].name != name ==> r[k] == rows[k]
  {
    map k | k in rows :: if rows[k].name == name then rows[k].(data := data) else rows[k]
  }

  /** `delete(chunks).where(eq(chunks.name, name))`. */
  function DeleteByName(rows: map<nat, ChunkRow>, name: string): (r: map<nat, ChunkRow>)
    ensures forall k :: k in r <==> k in rows && rows[k].name != name
    ensures forall k :: k in r ==> r[k] == rows[k]
  {
    map k | k in rows && rows[k].name != name :: rows[k]
  }

  /** `findMany({where: eq(chunks.projectId, projectId)})` over the ids `from .. upto - 1`, in id order. */
  function ChunksOf(rows: map<nat, ChunkRow>, projectId: nat, from: nat, upto: nat): (r: seq<ChunkRecord>)
    ensures forall i :: 0 <= i < |r| ==>
      from <= r[i].id < upto && r[i].id in rows && rows[r[i].id] == r[i].row && r[i].row.projectId == projectId
    decreases upto - from
  {
    if from >= upto then []
    else
      var rest := ChunksOf(rows, projectId, from + 1, upto);
      if from in rows && rows[from].projectId == projectId then [ChunkRecord(from, rows[from])] + rest
      else rest
  }

  /** Every row of the project in the id range is listed. */
  lemma {:induction false} ChunksOfComplete(rows: map<nat, ChunkRow>, projectId: nat, from: nat, upto: nat, k: nat)
    requires from <= k < upto && k in rows && rows[k].projectId == projectId
    ensures exists i :: 0 <= i < |ChunksOf(rows, projectId, from, upto)| && ChunksOf(rows, projectId, from, upto)[i].id == k
    decreases upto - from
  {
    var r := ChunksOf(rows, projectId, from, upto);
    if k == from {
      assert r[0].id == k;
    } else {
      ChunksOfComplete(rows, projectId, from + 1, upto, k);
      var rest := ChunksOf(rows, projectId, from + 1, upto);
      var i :| 0 <= i < |rest| && rest[i].id == k;
      if from in rows && rows[from].projectId == projectId {
        assert r[i + 1] == rest[i];
      } else {
        assert r[i] == rest[i];
      }
    }
  }

  predicate IncreasingIds(r: seq<ChunkRecord>) {
    forall i, j :: 0 <= i < j < |r| ==> r[i].id < r[j].id
  }

  /** The listing is in increasing id order. */
  lemma {:induction false} ChunksOfSorted(rows: map<nat, ChunkRow>, projectId: nat, from: nat, upto: nat)
    ensures IncreasingIds(ChunksOf(rows, projectId, from, upto))
    decreases upto - from
  {
    if from < upto {
      ChunksOfSorted(rows, projectId, from + 1, upto);
      var rest := ChunksOf(rows, projectId, from + 1, upto);
      var r := ChunksOf(rows, projectId, from, upto);
      if from in rows && rows[from].projectId == projectId {
        assert r == [ChunkRecord(from, rows[from])] + rest;
        forall i, j | 0 <= i < j < |r| ensures r[i].id < r[j].id {
          assert r[j] == rest[j - 1];
          if i > 0 {
            assert r[i] == rest[i - 1];
            assert rest[i - 1].id < rest[j - 1].id;
          } else {
            assert from + 1 <= rest[j - 1].id;
          }
        }
      } else {
        assert r == rest;
      }
    }
  }

  /** No two rows share a name. */
  predicate UniqueNames(rows: map<nat, ChunkRow>) {
    forall j, k :: j in rows && k in rows && rows[j].name == rows[k].name ==> j == k
  }

  class Database {
    var chunks: map<nat, ChunkRow>
    var nextChunkId: nat
    var projects: map<nat, ProjectRow>
    var nextProjectId: nat

    /** Every id in use is below the next serial value. */
    ghost predicate Valid()
      reads this
    {
      (forall k :: k in chunks ==> k < nextChunkId) && (forall k :: k in projects ==> k < nextProjectId)
    }

    constructor ()
      ensures Valid() && chunks == map[] && projects == map[]
      ensures nextChunkId == 0 && nextProjectId == 0
    {
      chunks := map[];
      nextChunkId := 0;
      projects := map[];
      nextProjectId := 0;
    }
  }
}
