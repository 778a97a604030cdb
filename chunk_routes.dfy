/**
 * The chunk controller of `app/src/controllers/chunk.ts`: GET, POST and DELETE of `/:chunkId`
 * over the `chunks` table. Every handler selects rows by `name` alone; the authenticated
 * project only signs (GET) or owns newly inserted rows (POST).
 */
module ChunkRoutes {
  import opened Wrappers
  import opened Utf8
  import Base64
  import opened Crypto
  import opened ServerDb

  /** The project the `readAuth`/`writeAuth` middleware put in the request context. */
  datatype Caller = Caller(id: nat, project: ProjectRow)

  /** The middleware guarding a route. */
  datatype Guard = ReadAuth | WriteAuth

  /** The JSON body GET answers with. */
  datatype GetReply = GetReply(data: string, hash: string, sig: string)

  const NotFound: string := "cannot find chunk for chunkdId: "

  /**
   * GET: the first row named `chunkId`, the hex SHA-256 of its data, and the base64 RS256
   * signature of that hex text under the caller's private key, whoever owns the row.
   */
  function GetSpec(rows: map<nat, ChunkRow>, upto: nat, suite: Suite, caller: Caller, chunkId: string): (r: Result<GetReply>)
    ensures r.Err? <==> forall k :: k < upto && k in rows ==> rows[k].name != chunkId
    ensures r.Err? ==> r.error == NotFound + chunkId
    ensures r.Ok? ==> exists k :: k < upto && k in rows && rows[k].name == chunkId && rows[k].data == r.value.data
                                  && forall j :: j < k && j in rows ==> rows[j].name != chunkId
    ensures r.Ok? ==> r.value.hash == Sha256Hex(suite, r.value.data)
    ensures r.Ok? ==> r.value.sig == Base64.Encode(suite.rsaSign(caller.project.privateKey, Utf8.Encode(r.value.hash)))
  {
    match FirstByName(rows, chunkId, 0, upto)
    case None => Err(NotFound + chunkId)
    case Some(k) =>
      var data := rows[k].data;
      var hash := Sha256Hex(suite, data);
      Ok(GetReply(data, hash, Base64.Encode(suite.rsaSign(caller.project.privateKey, Utf8.Encode(hash)))))
  }

  /** POST: insert a row owned by the caller when the name is new, else set `data` of every row with that name. */
  function PostSpec(rows: map<nat, ChunkRow>, next: nat, caller: Caller, chunkId: string, body: string): (r: (map<nat, ChunkRow>, nat))
    ensures FirstByName(rows, chunkId, 0, next).None? ==>
      r == (rows[next := ChunkRow(chunkId, body, caller.id)], next + 1)
    ensures FirstByName(rows, chunkId, 0, next).Some? ==> r == (SetDataByName(rows, chunkId, body), next)
  {
    if FirstByName(rows, chunkId, 0, next).None? then (rows[next := ChunkRow(chunkId, body, caller.id)], next + 1)
    else (SetDataByName(rows, chunkId, body), next)
  }

  predicate Bounded(rows: map<nat, ChunkRow>, next: nat) {
    forall k :: k in rows ==> k < next
  }

  /** After a POST of `body` to a name, a GET of that name answers with `body`. */
  lemma {:induction false} PostThenGet(rows: map<nat, ChunkRow>, next: nat, suite: Suite, poster: Caller, reader: Caller,
                                       chunkId: string, body: string)
    requires Bounded(rows, next)
    ensures var (rows', next') := PostSpec(rows, next, poster, chunkId, body);
            Bounded(rows', next') && GetSpec(rows', next', suite, reader, chunkId).Ok?
            && GetSpec(rows', next', suite, reader, chunkId).value.data == body
  {
    var (rows', next') := PostSpec(rows, next, poster, chunkId, body);
    if FirstByName(rows, chunkId, 0, next).None? {
      assert rows'[next].name == chunkId;
      var k := FirstByName(rows', chunkId, 0, next').value;
      assert k == next;
    } else {
      var k := FirstByName(rows', chunkId, 0, next').value;
      assert rows[k].name == chunkId;
    }
  }

  /** POST never changes which project owns an existing row, and a new row belongs to the caller. */
  lemma PostOwnership(rows: map<nat, ChunkRow>, next: nat, caller: Caller, chunkId: string, body: string)
    requires Bounded(rows, next)
    ensures var (rows', _) := PostSpec(rows, next, caller, chunkId, body);
            (forall k :: k in rows ==> k in rows' && rows'[k].projectId == rows[k].projectId && rows'[k].name == rows[k].name)
            && (forall k :: k in rows' && k !in rows ==> rows'[k] == ChunkRow(chunkId, body, caller.id))
  {
  }

  /** POST and DELETE keep names unique: POST inserts only a name no row has. */
  lemma {:induction false} PostKeepsNamesUnique(rows: map<nat, ChunkRow>, next: nat, caller: Caller, chunkId: string, body: string)
    requires Bounded(rows, next) && UniqueNames(rows)
    ensures UniqueNames(PostSpec(rows, next, caller, chunkId, body).0)
  {
    if FirstByName(rows, chunkId, 0, next).None? {
      assert forall k :: k in rows ==> rows[k].name != chunkId;
    }
  }

  lemma DeleteKeepsNamesUnique(rows: map<nat, ChunkRow>, chunkId: string)
    requires UniqueNames(rows)
    ensures UniqueNames(DeleteByName(rows, chunkId))
  {
  }

  /** After DELETE of a name, GET of it fails and rows with other names are untouched. */
  lemma DeleteThenGet(rows: map<nat, ChunkRow>, upto: nat, suite: Suite, caller: Caller, chunkId: string)
    ensures GetSpec(DeleteByName(rows, chunkId), upto, suite, caller, chunkId) == Err(NotFound + chunkId)
  {
  }

  /**
   * GET serves a row of any project, signed with the caller's own key: reading needs no
   * relation between the caller and the row's owner.
   */
  lemma CrossProjectRead(rows: map<nat, ChunkRow>, upto: nat, suite: Suite, caller: Caller, k: nat)
    requires k < upto && k in rows && rows[k].projectId != caller.id && UniqueNames(rows)
    ensures GetSpec(rows, upto, suite, caller, rows[k].name) ==
      var hash := Sha256Hex(suite, rows[k].data);
      Ok(GetReply(rows[k].data, hash, Base64.Encode(suite.rsaSign(caller.project.privateKey, Utf8.Encode(hash)))))
  {
  }

  /** The `sig` of a GET reply verifies under the caller's public key. */
  lemma GetSignatureVerifies(rows: map<nat, ChunkRow>, upto: nat, suite: Suite, caller: Caller, chunkId: string)
    requires Sound(suite)
    requires GetSpec(rows, upto, suite, caller, chunkId).Ok?
    ensures var reply := GetSpec(rows, upto, suite, caller, chunkId).value;
            suite.rsaVerify(suite.publicKeyOf(caller.project.privateKey), Utf8.Encode(reply.hash), Base64.Decode(reply.sig))
  {
    var reply := GetSpec(rows, upto, suite, caller, chunkId).value;
    Base64.DecodeEncode(suite.rsaSign(caller.project.privateKey, Utf8.Encode(reply.hash)));
  }

  /** A request to the controller, with the credentials the middleware checks. */
  datatype Request<Credentials> =
    | GetChunk(credentials: Credentials, chunkId: string)
    | PostChunk(credentials: Credentials, chunkId: string, body: string)
    | DeleteChunk(credentials: Credentials, chunkId: string)

  datatype Response = Json(reply: GetReply) | Status(code: int) | Thrown(message: string)

  /** The middleware of each route: DELETE takes only `readAuth`, like GET. */
  function GuardOf<C>(request: Request<C>): Guard {
    match request
    case GetChunk(_, _) => ReadAuth
    case PostChunk(_, _, _) => WriteAuth
    case DeleteChunk(_, _) => ReadAuth
  }

  /**
   * The routed controller. `authenticate` stands for the middleware, which is not part of this
   * model: it yields the project the credentials admit under the guard, or rejects (401).
   */
  method Handle<C>(db: Database, suite: Suite, authenticate: (Guard, C) -> Option<Caller>, request: Request<C>)
    returns (response: Response)
    requires db.Valid()
    modifies db
    ensures db.Valid() && db.projects == old(db.projects) && db.nextProjectId == old(db.nextProjectId)
    ensures authenticate(GuardOf(request), request.credentials).None? ==>
      response == Status(401) && db.chunks == old(db.chunks) && db.nextChunkId == old(db.nextChunkId)
    ensures authenticate(GuardOf(request), request.credentials).Some? ==>
      var caller := authenticate(GuardOf(request), request.credentials).value;
      match request
      case GetChunk(_, id) =>
        db.chunks == old(db.chunks) && db.nextChunkId == old(db.nextChunkId)
        && response == (match GetSpec(old(db.chunks), old(db.nextChunkId), suite, caller, id)
                        case Ok(reply) => Json(reply)
                        case Err(e) => Thrown(e))
      case PostChunk(_, id, body) =>
        (db.chunks, db.nextChunkId) == PostSpec(old(db.chunks), old(db.nextChunkId), caller, id, body)
        && response == Status(200)
      case DeleteChunk(_, id) =>
        db.chunks == DeleteByName(old(db.chunks), id) && db.nextChunkId == old(db.nextChunkId)
        && response == Status(200)
  {
    var caller := authenticate(GuardOf(request), request.credentials);
    if caller.None? {
      return Status(401);
    }
    match request
    case GetChunk(_, id) =>
      var r := Get(db, suite, caller.value, id);
      response := if r.Ok? then Json(r.value) else Thrown(r.error);
    case PostChunk(_, id, body) =>
      Post(db, caller.value, id, body);
      response := Status(200);
    case DeleteChunk(_, id) =>
      db.chunks := DeleteByName(db.chunks, id);
      response := Status(200);
  }

  /** The GET handler body. */
  method Get(db: Database, suite: Suite, caller: Caller, chunkId: string) returns (r: Result<GetReply>)
    requires db.Valid()
    ensures r == GetSpec(db.chunks, db.nextChunkId, suite, caller, chunkId)
    ensures r.Err? <==> forall k :: k in db.chunks ==> db.chunks[k].name != chunkId
  {
    var found := FirstByName(db.chunks, chunkId, 0, db.nextChunkId);
    if found.None? {
      return Err(NotFound + chunkId);
    }
    var data := db.chunks[found.value].data;
    var hash := Sha256Hex(suite, data);
    var sig := Base64.Encode(suite.rsaSign(caller.project.privateKey, Utf8.Encode(hash)));
    r := Ok(GetReply(data, hash, sig));
  }

  /** The POST handler body: find, then insert or update. */
  method Post(db: Database, caller: Caller, chunkId: string, body: string)
    requires db.Valid()
    modifies db
    ensures db.Valid() && (db.chunks, db.nextChunkId) == PostSpec(old(db.chunks), old(db.nextChunkId), caller, chunkId, body)
    ensures db.projects == old(db.projects) && db.nextProjectId == old(db.nextProjectId)
  {
    var found := FirstByName(db.chunks, chunkId, 0, db.nextChunkId);
    if found.None? {
      db.chunks := db.chunks[db.nextChunkId := ChunkRow(chunkId, body, caller.id)];
      db.nextChunkId := db.nextChunkId + 1;
    } else {
      db.chunks := SetDataByName(db.chunks, chunkId, body);
    }
  }
}
