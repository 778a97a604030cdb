/**
 * The project controller of `app/src/controllers/project.ts`: GET lists the caller's chunks;
 * POST, behind HTTP Basic authentication with the admin credentials from the environment,
 * creates a project with generated keys and an RSA key pair.
 */
module ProjectRoutes {
  import opened Wrappers
  import opened Text
  import Utf8
  import Base64
  import opened Crypto
  import opened Json
  import opened ServerDb
  import ChunkRoutes
  import InitCli

  /** `process.env.RECHUNK_USERNAME` and `RECHUNK_PASSWORD`, absent or not. */
  datatype AdminEnv = AdminEnv(username: Option<string>, password: Option<string>)

  datatype Admin = Admin(username: string, password: string)

  const MissingUsername: string :=
    "[RECHUNK]: RECHUNK_USERNAME environment variable not found, add RECHUNK_USERNAME to .env file."
  const MissingPassword: string :=
    "[RECHUNK]: RECHUNK_PASSWORD environment variable not found, add RECHUNK_PASSWORD to .env file"

  predicate Provided(v: Option<string>) {
    v.Some? && v.value != ""
  }

  /** Loading the module throws unless both variables are set and non-empty, username first. */
  function LoadModule(env: AdminEnv): (r: Result<Admin>)
    ensures !Provided(env.username) ==> r == Err(MissingUsername)
    ensures Provided(env.username) && !Provided(env.password) ==> r == Err(MissingPassword)
    ensures Provided(env.username) && Provided(env.password) ==> r == Ok(Admin(env.username.value, env.password.value))
  {
    if !Provided(env.username) then Err(MissingUsername)
    else if !Provided(env.password) then Err(MissingPassword)
    else Ok(Admin(env.username.value, env.password.value))
  }

  /**
   * The user and password hono's `basicAuth` reads from an Authorization header: the base64
   * text after "Basic ", decoded as UTF-8 and split at its first ':'.
   */
  function BasicCredentials(header: Option<string>): (r: Option<(string, string)>)
    ensures r.Some? ==> ':' !in r.value.0
  {
    if header.None? || !StartsWith(header.value, "Basic ") then None
    else
      var decoded := Utf8.Decode(Base64.Decode(header.value[6..]));
      match FirstIndex(decoded, ':')
      case None => None
      case Some(i) => Some((decoded[..i], decoded[i + 1..]))
  }

  predicate Admitted(header: Option<string>, admin: Admin) {
    BasicCredentials(header) == Some((admin.username, admin.password))
  }

  /** Credentials sent as RFC 7617 prescribes are read back, when the user id has no ':'. */
  lemma {:induction false} BasicHeaderAdmitted(admin: Admin)
    requires ':' !in admin.username
    ensures Admitted(Some(InitCli.BasicHeader(admin.username, admin.password)), admin)
  {
    var text := admin.username + ":" + admin.password;
    var h := InitCli.BasicHeader(admin.username, admin.password);
    assert h[6..] == Base64.Encode(Utf8.Encode(text));
    Base64.DecodeEncode(Utf8.Encode(text));
    Utf8.DecodeEncode(text);
    assert text[|admin.username|] == ':' && text[..|admin.username|] == admin.username;
    var i := FirstIndex(text, ':').value;
    assert i == |admin.username|;
    assert text[i + 1..] == admin.password;
  }

  /** GET `/`: the caller's chunks, all of them and only them, in id order. */
  method ListChunks(db: Database, caller: ChunkRoutes.Caller) returns (rows: seq<ChunkRecord>)
    requires db.Valid()
    ensures forall i :: 0 <= i < |rows| ==>
      rows[i].id in db.chunks && db.chunks[rows[i].id] == rows[i].row && rows[i].row.projectId == caller.id
    ensures forall k :: k in db.chunks && db.chunks[k].projectId == caller.id ==>
      exists i :: 0 <= i < |rows| && rows[i].id == k
    ensures IncreasingIds(rows)
  {
    rows := ChunksOf(db.chunks, caller.id, 0, db.nextChunkId);
    forall k | k in db.chunks && db.chunks[k].projectId == caller.id
      ensures exists i :: 0 <= i < |rows| && rows[i].id == k
    {
      ChunksOfComplete(db.chunks, caller.id, 0, db.nextChunkId, k);
    }
    ChunksOfSorted(db.chunks, caller.id, 0, db.nextChunkId);
  }

  /** The row POST inserts: prefixed keys and the PEM texts of a fresh key pair. */
  function NewProject(suite: Suite, name: string, readUuid: string, writeUuid: string, privateKey: string): ProjectRow {
    ProjectRow(name, "read-" + readUuid, "write-" + writeUuid, suite.publicKeyOf(privateKey), privateKey)
  }

  /** A read key is never a write key: the prefixes differ in their first character. */
  lemma ReadAndWriteKeysDiffer(suite: Suite, name: string, readUuid: string, writeUuid: string, privateKey: string)
    ensures var row := NewProject(suite, name, readUuid, writeUuid, privateKey);
            StartsWith(row.readKey, "read-") && StartsWith(row.writeKey, "write-") && row.readKey != row.writeKey
  {
    var row := NewProject(suite, name, readUuid, writeUuid, privateKey);
    assert row.readKey[0] == 'r' && row.writeKey[0] == 'w';
  }

  /** The JSON body POST answers with. */
  datatype CreatedReply = CreatedReply(project: string, readKey: string, writeKey: string,
                                       publicKey: Json, privateKey: Json,
                                       entry: seq<string>, external: seq<string>)

  /**
   * The reply as the source builds it: `publicKey` and `privateKey` are the `KeyObject`s from
   * `generateKeyPairSync`, not the exported PEM texts, and `JSON.stringify` writes a
   * `KeyObject` as `{}`.
   */
  function ReplyAsWritten(row: ProjectRow): CreatedReply {
    CreatedReply(row.name, row.readKey, row.writeKey, JObject([]), JObject([]), [], [])
  }

  /** As written, the reply never carries the keys that were stored. */
  lemma ReplyAsWrittenLosesKeys(row: ProjectRow)
    ensures ReplyAsWritten(row).publicKey != JString(row.publicKey)
    ensures ReplyAsWritten(row).privateKey != JString(row.privateKey)
  {
  }

  /** The reply with the exported PEM texts, as `rechunk.json` needs them. */
  function Reply(row: ProjectRow): (r: CreatedReply)
    ensures r.publicKey.JString? && r.privateKey.JString?
  {
    CreatedReply(row.name, row.readKey, row.writeKey, JString(row.publicKey), JString(row.privateKey), [], [])
  }

  /** The reply states what was stored: name, both keys and both PEM texts; `entry` and `external` are empty. */
  lemma ReplyMatchesStoredRow(suite: Suite, name: string, readUuid: string, writeUuid: string, privateKey: string)
    ensures var row := NewProject(suite, name, readUuid, writeUuid, privateKey);
            var reply := Reply(row);
            reply.project == name && reply.readKey == row.readKey && reply.writeKey == row.writeKey
            && reply.publicKey == JString(suite.publicKeyOf(privateKey)) && reply.privateKey == JString(privateKey)
            && reply.entry == [] && reply.external == []
  {
  }

  datatype CreateResponse = Unauthorized | Created(reply: CreatedReply)

  /**
   * POST `/`. `name` (the `namor` name), the two UUIDs and the private key stand for the random
   * values the handler draws. It answers the corrected `Reply`, with the stored PEM texts; the
   * reply as written is `ReplyAsWritten`.
   */
  method Create(db: Database, suite: Suite, admin: Admin, authorization: Option<string>,
                name: string, readUuid: string, writeUuid: string, privateKey: string)
    returns (response: CreateResponse)
    requires db.Valid()
    modifies db
    ensures db.Valid() && db.chunks == old(db.chunks) && db.nextChunkId == old(db.nextChunkId)
    ensures !Admitted(authorization, admin) ==>
      response == Unauthorized && db.projects == old(db.projects) && db.nextProjectId == old(db.nextProjectId)
    ensures Admitted(authorization, admin) ==>
      var row := NewProject(suite, name, readUuid, writeUuid, privateKey);
      db.projects == old(db.projects)[old(db.nextProjectId) := row]
      && db.nextProjectId == old(db.nextProjectId) + 1
      && response == Created(Reply(row))
  {
    if !Admitted(authorization, admin) {
      return Unauthorized;
    }
    var readKey := "read-" + readUuid;
    var writeKey := "write-" + writeUuid;
    var publicKey := suite.publicKeyOf(privateKey);
    var row := ProjectRow(name, readKey, writeKey, publicKey, privateKey);
    db.projects := db.projects[db.nextProjectId := row];
    db.nextProjectId := db.nextProjectId + 1;
    response := Created(Reply(row));
  }
}
