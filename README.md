# rechunk, modelled in Dafny

rechunk serves React Native components ("chunks") from a server and checks their integrity on
the device before running them:

- The CLI's development server (`packages/cli/src/cmds/dev-server.ts`) bundles a chunk. It answers
  with the bundled code and an RS256 JWS (a signed JSON web token, section 3.3 of RFC 7518). The
  token signs the hex SHA-256 of the code.
- The client (`packages/core/src/ChunkManager.ts` with `src/react-native/jws.ts`) fetches a chunk
  with Basic credentials. It accepts the chunk only when the token verifies under its public key
  and names the digest of the code. It then caches the component and announces its id.
- Around this path sit:
  - the server's chunk and project controllers (`app/src/controllers`);
  - the web dashboard: session, sign-in with single-use tokens, Basic authentication, the chunk
    list and its navigation, and two code-highlighting transformers;
  - `rechunk init`;
  - the Babel plugin that inlines the project's configuration at build time, with its helpers for
    finding the workspace and the running dev server.

The project models all of these on values. A module per source file:

- **Primitives.** `Wrappers`, `Text`, `Utf8`, `Base64`, `Json`, `Paths`, `Hast`.
- **Cryptography.**
  - `Crypto`: SHA-256 and RS256 as uninterpreted functions in a `Suite`, with one soundness
    predicate.
  - `Jose`: jsrsasign's compact JWS sign, verify and parse.
- **Client.** `Integrity` (jws.ts) and `ChunkCore` (ChunkManager.ts).
- **Servers.** `DevServer`, `ServerDb`, `ChunkRoutes`, `ProjectRoutes`.
- **Dashboard.** `Session`, `Tokens`, `AuthRoutes`, `WebAuth`, `ErrorHandler`, `ChunkNavigation`,
  `RouteData`, `DashboardChunks`, `ShikiLineNumbers`, `ShikiFilename`.
- **CLI, plugin and helpers.** `InitCli`, `Utils`, `Workspace`, `BabelPlugin`.
- **Both ends together.** `EndToEnd`.

Where the source changes state, the model changes state too:

- the manager, its registry, the token table, the database, the cookie session and the plugin's
  file cache are classes;
- the `ps` table and the line numbering are loops.

Each of these is tied to a function that specifies it.

The model follows the code, including three of its properties that a reader might not expect:

- The chunk controller selects rows by chunk name alone (`eq(chunks.name, chunkId)` at
  app/src/controllers/chunk.ts:20, 46, 61 and 69), not by project and name. Any authenticated
  project reads, overwrites or deletes any project's chunk of that name (`ChunkRoutes.CrossProjectRead`).
- DELETE runs behind the read-key middleware `readAuth()`, like GET, and not behind `writeAuth()`
  (app/src/controllers/chunk.ts:66; `ChunkRoutes.GuardOf`).
- GET answers `{data, hash, sig}` (app/src/controllers/chunk.ts:33-37), while the client's default
  resolver requires `data` and `token` (packages/core/src/ChunkManager.ts:75), so it rejects that
  reply (`EndToEnd.ControllerReplyRejected`).

The two defects listed under "## Findings" are the exception. Each is modelled as written, with a
lemma that shows the defect, and as corrected. The stateful handlers `DevServer.Handle` and
`ProjectRoutes.Create` are built on the corrected halves, as "## Left out" records.

## Model

| member | source | states |
|---|---|---|
| Text.Contains | apps/www/app/lib/shiki/transformers/metaLimenumbers.ts:17 | `includes` is true exactly when the pattern occurs at some index |
| Text.Split | apps/www/app/utils/auth.ts:14 | the parts hold no separator and joined with it give back the text; with SplitUnique this fixes the result |
| Text.SplitUnique | apps/www/app/utils/auth.ts:14 | splitting the join of parts that hold no separator gives back those parts |
| Text.SplitHasSecondPart | apps/www/app/utils/auth.ts:14 | a second part exists exactly when the separator occurs |
| Text.JoinTailOfSplit | packages/utils/src/index.ts:133-134 | rejoining the parts after the first gives the text after the first separator |
| Text.Trim | packages/utils/src/index.ts:125-126 | the result is the text with only leading and trailing `\s` removed, and it neither starts nor ends with one |
| Text.FirstIndex | apps/www/app/utils/auth.ts:14 | the first occurrence, None exactly when absent |
| Text.RunEnd | apps/www/app/lib/shiki/transformers/metaFilename.ts:18-19 | every character from the start to the end is in the class, and the one at the end is not |
| Text.RunEndAt | apps/www/app/lib/shiki/transformers/metaFilename.ts:18-19 | the run end is the unique index where the run stops |
| Utf8.EncodeChar | src/react-native/jws.ts:21 | one to four bytes per scalar value, exactly one for ASCII |
| Utf8.DecodeOne | apps/www/app/routes/_dashboard.chunks.tsx:25 | an ASCII byte is its character; a byte that cannot lead a sequence is one U+FFFD on its own; the bytes taken after the lead are continuations, the second in the range the lead allows; a sequence that breaks off is a single U+FFFD over the bytes read so far (its maximal subpart) |
| Utf8.TruncatedSequenceIsOneReplacement | apps/www/app/routes/_dashboard.chunks.tsx:25 | the bytes E2 82 41 decode as one U+FFFD followed by "A" |
| Utf8.DecodeEncode | apps/www/app/routes/_dashboard.chunks.tsx:25 | decoding the encoding gives the string back |
| Utf8.EncodeAscii | apps/www/app/utils/auth.ts:10-13 | on ASCII text each character is one byte equal to its code |
| Utf8.DecodeStrict | src/react-native/jws.ts:57-59 | a strict decode that succeeds gives the string whose UTF-8 is the input, the same as the lenient decode |
| Utf8.DecodeStrictEncode | src/react-native/jws.ts:57-59 | strict decoding of an encoding succeeds with the string |
| Base64.EncodeUrl | packages/cli/src/cmds/dev-server.ts:116-121 | base64url text holds only word characters and '-' |
| Base64.DecodeEncode | packages/cli/src/cmds/publish.ts:87 | decoding the padded encoding gives the bytes back |
| Base64.DecodeEncodeUrl | packages/cli/src/cmds/dev-server.ts:116-121 | decoding base64url gives the bytes back |
| Base64.NoDotInEncodeUrl | packages/cli/src/cmds/dev-server.ts:116-121 | base64url text never holds the '.' that separates JWS segments |
| Json.Json.Get | apps/www/app/utils/data.ts:81-83 | `value[key]` is the last member of an object with the key, undefined otherwise |
| Json.Lookup | apps/www/app/utils/data.ts:81-83 | the value of a member with the key that no later member has (JSON.parse keeps the last duplicate); None only when no member has it |
| Crypto.Hex | packages/cli/src/cmds/dev-server.ts:115 | two lower-case hex digits per byte |
| Crypto.Sha256Hex | src/react-native/jws.ts:19-24 | the digest text is lower-case hex |
| Crypto.HexDigestIsAscii | src/react-native/jws.ts:19-24 | the hex digest is ASCII, so its UTF-8 bytes are its characters |
| Jose.Segment | packages/cli/src/cmds/dev-server.ts:116-121 | a segment holds no '.' |
| Jose.SegmentTextOfSegment | src/react-native/jws.ts:57-59 | a segment reads back as its text |
| Jose.HeaderAlg | src/react-native/jws.ts:44-46 | a header read as algorithm X is exactly the header written for X, a plain name |
| Jose.HeaderAlgOfAlgHeader | packages/cli/src/cmds/dev-server.ts:118 | the header written for an algorithm reads back as that algorithm |
| Jose.Sign | packages/cli/src/cmds/dev-server.ts:116-121 | signing succeeds only when the header names the requested algorithm and that algorithm is RS256 |
| Jose.AcceptedSingle | src/react-native/jws.ts:45 | for a one-name list and a name without ':', the test accepts exactly that name |
| Jose.Verify | src/react-native/jws.ts:44-46 | a token that does not split into three segments is false |
| Jose.PayloadPP | src/react-native/jws.ts:57-59 | `payloadPP` succeeds only for two or three segments |
| Jose.SplitCompact | packages/cli/src/cmds/dev-server.ts:116-121 | the compact form splits back into its three segments |
| Jose.VerifySigned | src/react-native/jws.ts:44-46 | RS256 round trip: a token signed with a private key verifies under its public key |
| Jose.PayloadOfSigned | src/react-native/jws.ts:97-98 | the payload of a signed token is its payload text, when that is not object-like |
| Integrity.Checker.GenerateHash | src/react-native/jws.ts:19-24 | defined exactly for `sha256`, as the hex SHA-256 of the data |
| Integrity.Checker.Verify | src/react-native/jws.ts:93-101 | false when the signature fails; with `sha256`, a verified signature makes it true exactly when the payload is the data's digest and false for any other payload; true only in that case |
| Integrity.TamperedDataRejected | src/react-native/jws.ts:97-101 | a token that vouches for some data rejects any data with a different digest |
| Integrity.OnlyConfiguredAlgorithm | src/react-native/jws.ts:44-46 | a token that verifies names the configured algorithm in its header |
| Integrity.SignedDigestAccepted | src/react-native/jws.ts:93-101 | a token signed over the data's digest with the matching private key verifies |
| Integrity.SignedTokenVerifies | src/react-native/jws.ts:94-96 | a token signed with RS256 under a private key passes the signature check of a checker holding the matching public key |
| Integrity.SignedTokenPayload | src/react-native/jws.ts:97-98 | the payload of a token signed over the data's hex digest decodes to that digest |
| ChunkCore.Btoa | packages/core/src/ChunkManager.ts:68-70 | defined exactly for Latin-1 text, as base64 of its bytes |
| ChunkCore.DefaultResolve | packages/core/src/ChunkManager.ts:55-83 | an empty id fails with "Invalid chunkId provided"; every failure carries the "Failed to fetch chunk: " prefix; a success has non-empty data and token |
| ChunkCore.CacheHitDoesNotResolve | packages/core/src/ChunkManager.ts:214-216 | an id cached with truthy exports returns the cached component; nothing is resolved, emitted or changed |
| ChunkCore.FalsyExportsResolveAgain | packages/core/src/ChunkManager.ts:214-216 | an id cached with falsy exports is no hit: it is resolved again, with the result and event of an import with nothing cached |
| ChunkCore.FailedIntegrityThrows | packages/core/src/ChunkManager.ts:227-232 | with verification on, a token that does not vouch for the code gives "cannot verify hash" and nothing is cached |
| ChunkCore.ImportEffects | packages/core/src/ChunkManager.ts:210-240 | a success leaves the component cached under the id, changes no other key, and emits the id whenever it was instantiated, which is whenever the cached value was not a truthy hit |
| ChunkCore.VerifyOffSkipsCheck | packages/core/src/ChunkManager.ts:237-239 | with verification off, the code is instantiated whatever its token |
| ChunkCore.SecondImportDoesNotResolve | packages/core/src/ChunkManager.ts:214-216 | a second import after a successful one calls the resolver exactly when the component's exports are falsy, and otherwise returns the same component with the cache unchanged |
| ChunkCore.ChunkManager.constructor | packages/core/src/ChunkManager.ts:91-106 | an empty cache, the default resolver, verification on, and the global object and public key the build inlines |
| ChunkCore.ChunkManager.AddConfiguration | packages/core/src/ChunkManager.ts:180-203 | `verify` is taken whenever given, `false` included; resolver, global and public key only when truthy |
| ChunkCore.ChunkManager.ChunkToComponent | packages/core/src/ChunkManager.ts:141-169 | instantiate, cache under the id, emit the id; throws without a global object |
| ChunkCore.ChunkManager.ImportChunk | packages/core/src/ChunkManager.ts:210-240 | result, cache, resolver calls and events are those of ImportSpec on the state before, whose cache test is the truthiness of the cached exports |
| ChunkCore.Registry.Shared | packages/core/src/ChunkManager.ts:112-118 | the first call creates the manager; every later call returns the same one |
| DevServer.MatchIffMatches | packages/cli/src/cmds/dev-server.ts:82 | `Match` succeeds exactly when the regular expression matches somewhere in the text |
| DevServer.MatchGroups | packages/cli/src/cmds/dev-server.ts:84-86 | the groups are the text between the leftmost "/projects/" and the chosen "/chunks/", and the word after it |
| DevServer.MatchIsLeftmost | packages/cli/src/cmds/dev-server.ts:84-86 | no match starts before the one used |
| DevServer.MatchIsGreedy | packages/cli/src/cmds/dev-server.ts:84-86 | from that start, no match reaches a later "/chunks/" |
| DevServer.MatchEndBeforeLineEnd | packages/cli/src/cmds/dev-server.ts:84-86 | `.` stops at line terminators |
| DevServer.StartAtIffMatches | packages/cli/src/cmds/dev-server.ts:84-86 | the greedy search from a start finds a match exactly when one exists there |
| DevServer.MatchesAtExtends | packages/cli/src/cmds/dev-server.ts:82-86 | a match stays a match with more text after it |
| DevServer.MatchOnPathSucceeds | packages/cli/src/cmds/dev-server.ts:88-90 | when the test passes on the pathname the path matches too, so "cannot parse url" is unreachable |
| DevServer.CanonicalPathGroups | packages/cli/src/cmds/dev-server.ts:92-93 | "/projects/p/chunks/w" captures p and w, even when p itself holds "/chunks/" |
| DevServer.PathnameGroups | packages/cli/src/cmds/dev-server.ts:92-93 | the request path for chunk "b" of project "a" captures ("a", "b") |
| DevServer.IssueToken | packages/cli/src/cmds/dev-server.ts:114-121 | a token is issued exactly when the private key is PEM text; otherwise `KEYUTIL.getKey` throws "not supported argument" |
| DevServer.ServeChunk | packages/cli/src/cmds/dev-server.ts:103-133 | an id without an entry fails; with an entry that bundles, the reply is 200 exactly when the private key is PEM text, and a success answers JSON `{token, data}` with the bundled code and its token |
| DevServer.RouteAsWritten | packages/cli/src/cmds/dev-server.ts:82-93 | a pathname that fails the test gets 400 "Bad Request" |
| DevServer.QueryStringPicksChunk | packages/cli/src/cmds/dev-server.ts:84-86 | as written, "?x=/chunks/c" on a request for chunk "b" serves chunk "c" |
| DevServer.AsWrittenServesQueryChunk | packages/cli/src/cmds/dev-server.ts:82-93 | as written, the request for chunk "b" with the query "?x=/chunks/c" is answered with chunk "c" |
| DevServer.RouteServesPathnameChunk | packages/cli/src/cmds/dev-server.ts:82-93 | with the capture on the pathname, that request is answered with chunk "b" whatever the query |
| DevServer.Route | packages/cli/src/cmds/dev-server.ts:82-137 | the handler with the capture taken from the pathname: 400 "Bad Request" when the test fails, else the chunk the pathname names |
| DevServer.ServeChunkVouches | packages/cli/src/cmds/dev-server.ts:114-127 | the served body is `{token, data}` and its token verifies for its data under the matching public key |
| DevServer.ServedChunkVerifies | packages/cli/src/cmds/dev-server.ts:77-139 | every 200 reply is accepted by the client's integrity check with the matching public key |
| DevServer.PortIsDerived | packages/cli/src/cmds/dev-server.ts:14-45 | 49904 is 49152 plus the code sum of "rechunk" modulo 16383 |
| DevServer.ServerResponse.WriteHead | packages/cli/src/cmds/dev-server.ts:130 | records the status and content type |
| DevServer.ServerResponse.End | packages/cli/src/cmds/dev-server.ts:133 | records the body |
| DevServer.Handle | packages/cli/src/cmds/dev-server.ts:77-139 | the written head and body are those of the corrected Route (chunk id from the pathname); a thrown error, an unreadable private key included, writes nothing |
| ServerDb.FirstByName | app/src/controllers/chunk.ts:19-21 | the lowest id holding the name, None exactly when no row has it |
| ServerDb.SetDataByName | app/src/controllers/chunk.ts:61 | every row with the name gets the data; other rows and all other columns are unchanged |
| ServerDb.DeleteByName | app/src/controllers/chunk.ts:66-72 | exactly the rows with the name are removed |
| ServerDb.ChunksOf | app/src/controllers/project.ts:31-39 | only rows of the project, each with its stored contents and id |
| ServerDb.ChunksOfComplete | app/src/controllers/project.ts:31-39 | every row of the project is listed |
| ServerDb.ChunksOfSorted | app/src/controllers/project.ts:31-39 | the listing is in increasing id order |
| ServerDb.Database.constructor | app/src/controllers/chunk.ts:15-72 | empty tables |
| ChunkRoutes.GetSpec | app/src/controllers/chunk.ts:15-39 | the data of a row with the name and no lower-id row with it (the first row by name), its hex SHA-256 and the base64 RS256 signature of that hex under the caller's key; a missing name fails |
| ChunkRoutes.PostSpec | app/src/controllers/chunk.ts:41-64 | a new name inserts a row owned by the caller; an existing name updates the data of every row with it |
| ChunkRoutes.PostThenGet | app/src/controllers/chunk.ts:41-64 | after a POST of a body to a name, a GET of that name answers with that body |
| ChunkRoutes.PostOwnership | app/src/controllers/chunk.ts:51-61 | a POST never changes the owner of an existing row; a new row belongs to the caller |
| ChunkRoutes.PostKeepsNamesUnique | app/src/controllers/chunk.ts:51-58 | POST keeps names unique |
| ChunkRoutes.DeleteKeepsNamesUnique | app/src/controllers/chunk.ts:66-72 | DELETE keeps names unique |
| ChunkRoutes.DeleteThenGet | app/src/controllers/chunk.ts:66-72 | after DELETE of a name, GET of it fails with the not-found error |
| ChunkRoutes.CrossProjectRead | app/src/controllers/chunk.ts:19-32 | GET serves a row of any project, signed with the caller's key |
| ChunkRoutes.GetSignatureVerifies | app/src/controllers/chunk.ts:27-32 | the `sig` of a GET reply verifies under the caller's public key |
| ChunkRoutes.Handle | app/src/controllers/chunk.ts:15-72 | an unauthenticated call is refused; otherwise the reply and tables are those of the route's specification |
| ChunkRoutes.Get | app/src/controllers/chunk.ts:15-39 | the reply is GetSpec's and fails exactly when no row has the name |
| ChunkRoutes.Post | app/src/controllers/chunk.ts:41-64 | the new tables are PostSpec's |
| ProjectRoutes.LoadModule | app/src/controllers/project.ts:12-23 | loading fails unless both variables are set and non-empty, the user name checked first |
| ProjectRoutes.BasicCredentials | app/src/controllers/project.ts:45-48 | the user name read holds no ':', the header being split at its first ':' |
| ProjectRoutes.BasicHeaderAdmitted | app/src/controllers/project.ts:45-48 | credentials sent as section 2 of RFC 7617 prescribes are read back when the user has no ':' |
| ProjectRoutes.ListChunks | app/src/controllers/project.ts:31-39 | all of the caller's chunks and only them, in id order |
| ProjectRoutes.ReadAndWriteKeysDiffer | app/src/controllers/project.ts:50-58 | the read key starts "read-", the write key "write-", and they differ |
| ProjectRoutes.ReplyAsWrittenLosesKeys | app/src/controllers/project.ts:68-76 | as written, the reply never carries the stored PEM keys |
| ProjectRoutes.Reply | app/src/controllers/project.ts:68-76 | both keys are JSON strings, the exported PEM texts |
| ProjectRoutes.ReplyMatchesStoredRow | app/src/controllers/project.ts:60-76 | the reply states the stored name, both keys and both PEM texts; entry and external are empty |
| ProjectRoutes.Create | app/src/controllers/project.ts:43-78 | without admitted credentials 401 and no change; otherwise one row inserted, as NewProject, and the corrected Reply about it (the stored PEM texts) |
| Session.ProjectIdOf | apps/www/app/session.server.ts:26-33 | some exactly when the session holds the `projectId` key, with its value |
| Session.FormRoundTrip | apps/www/app/session.server.ts:41-43 | a serialised `redirectTo` parses back to itself |
| Session.PlainTextDecodesToItself | apps/www/app/session.server.ts:41-43 | a value with no `+` and no `%`, non-ASCII characters included, parses back to itself |
| Session.RequireProjectId | apps/www/app/session.server.ts:35-47 | a non-empty stored id is allowed; otherwise the thrown redirect to the login page whose target defaults to the pathname |
| Session.LoginRedirectRemembersTarget | apps/www/app/session.server.ts:35-47 | the login URL hands back the page the visitor came from |
| Session.MaxAge | apps/www/app/session.server.ts:49-88 | 604800 seconds, seven days, exactly when remembered, a session cookie otherwise |
| Session.CookieSession.Set | apps/www/app/session.server.ts:85 | the key gets the value and nothing else changes |
| Session.CreateProjectIdSession | apps/www/app/session.server.ts:72-101 | the session holds the id and the answer redirects with the cookie; a failed commit is rethrown as "Could not create a project session." |
| Session.Logout | apps/www/app/session.server.ts:115-123 | a redirect home with a destroyed cookie, whatever the session held |
| Tokens.FirstMatch | apps/www/app/models/token.server.ts:47-49 | the lowest id holding the row, None exactly when none does |
| Tokens.VerifySpec | apps/www/app/models/token.server.ts:37-62 | null when the check throws or no row matches; otherwise the first matching row is deleted and the payload returned |
| Tokens.ConsumesOneRow | apps/www/app/models/token.server.ts:47-57 | a success removes exactly one stored copy of the token |
| Tokens.SecondVerificationFails | apps/www/app/models/token.server.ts:47-57 | a token stored once is accepted once; the same request again gets null |
| Tokens.NoCrossProjectToken | apps/www/app/models/token.server.ts:47-49 | a token stored for one project is never accepted for another |
| Tokens.TokenTable.CreateProjectToken | apps/www/app/models/token.server.ts:12-27 | one fresh row with the generated token, secret "" and lifetime 3600 by default |
| Tokens.TokenTable.VerifyProjectToken | apps/www/app/models/token.server.ts:37-62 | result and table are VerifySpec's |
| Tokens.CreatedTokenVerifiesOnce | apps/www/app/models/token.server.ts:12-62 | a created token verifies once for its project |
| AuthRoutes.TokenDecision | apps/www/app/routes/auth.token.tsx:36-52 | home for a missing parameter or a refused token; otherwise a session for the project, landing on "/chunks" |
| AuthRoutes.TokenLoaderSpec | apps/www/app/routes/auth.token.tsx:31-53 | a missing parameter goes home with nothing changed; any other answer comes with the project id stored in the session |
| AuthRoutes.ReplayedLinkGoesHome | apps/www/app/routes/auth.token.tsx:41-45 | opening a link again after it started a session redirects home and changes nothing |
| AuthRoutes.SessionNeedsStoredToken | apps/www/app/routes/auth.token.tsx:41-52 | a session starts only for a token stored for the project in the link |
| AuthRoutes.TokenLoader | apps/www/app/routes/auth.token.tsx:31-53 | the response, table and session are TokenLoaderSpec's |
| AuthRoutes.LoginLoader | apps/www/app/routes/auth.login.tsx:29-34 | a visitor with a project session goes to "/chunks", anyone else gets an empty JSON reply |
| AuthRoutes.FormString | apps/www/app/routes/auth.login.tsx:38-40 | a missing field reads as "null" |
| AuthRoutes.LoginDecision | apps/www/app/routes/auth.login.tsx:42-54 | the error text exactly when the verified id is falsy; otherwise a session for that id, back to the request's pathname, remembered exactly when `remember` is "on" |
| AuthRoutes.LoginAction | apps/www/app/routes/auth.login.tsx:36-55 | the response and session are LoginDecision's |
| WebAuth.AsciiDecode | apps/www/app/utils/auth.ts:10-13 | each byte with its high bit cleared |
| WebAuth.UserAndPassword | apps/www/app/utils/auth.ts:14 | user and password hold no ':'; the password is undefined exactly when there is no ':' |
| WebAuth.RequireAuth | apps/www/app/utils/auth.ts:4-23 | a header without the "Basic " prefix is refused; authorised exactly for "admin" with "password" |
| WebAuth.UserAndPasswordFields | apps/www/app/utils/auth.ts:14 | the user is the text before the first ':', the password the text after it up to the next ':' |
| WebAuth.NoSpaceInBase64 | apps/www/app/utils/auth.ts:10-13 | base64 text holds no space, so the header's second token is all of it |
| WebAuth.AsciiOfUtf8 | apps/www/app/utils/auth.ts:10-13 | ASCII read back from UTF-8 of ASCII text is the text |
| WebAuth.BasicHeaderRoundTrip | apps/www/app/utils/auth.ts:4-23 | the header `init` builds decodes back to its user and password |
| WebAuth.AdminHeaderAuthorized | apps/www/app/utils/auth.ts:17-22 | the one account let in, with the header `init` would send |
| ErrorHandler.HandleError | apps/www/app/utils/error.ts:5-8 | a JSON reply with the error's message (or "Internal Server Error") and the status, 500 by default |
| ChunkNavigation.FindIndex | apps/www/app/components/GoToNextChunk.tsx:58 | the first index of the id, None exactly when it is absent |
| ChunkNavigation.NextIndex | apps/www/app/components/GoToNextChunk.tsx:58 | in range, one up, and from the last back to 0 |
| ChunkNavigation.PreviousIndex | apps/www/app/components/GoToPreviousChunk.tsx:58-59 | in range, one down, and from 0 to the last |
| ChunkNavigation.PreviousUndoesNext | apps/www/app/components/GoToPreviousChunk.tsx:58-59 | back after forward returns to the index, and so does forward after back |
| ChunkNavigation.OnNext | apps/www/app/components/GoToNextChunk.tsx:52-62 | no effect for an empty or unknown current id; otherwise navigation to a listed chunk, reported when the callback is given |
| ChunkNavigation.OnPrevious | apps/www/app/components/GoToPreviousChunk.tsx:52-63 | as OnNext, backwards |
| ChunkNavigation.NextOfIndex | apps/www/app/components/GoToNextChunk.tsx:58-61 | with distinct ids, the next of the i-th is the one after it, cyclically |
| ChunkNavigation.PreviousOfIndex | apps/www/app/components/GoToPreviousChunk.tsx:58-62 | with distinct ids, the previous of the i-th is the one before it, cyclically |
| ChunkNavigation.EndsWrapAround | apps/www/app/components/GoToNextChunk.tsx:58 | the last id leads to the first and the first back to the last |
| ChunkNavigation.SingleChunkStays | apps/www/app/components/GoToNextChunk.tsx:58 | a single chunk leads to itself both ways |
| ChunkNavigation.PreviousAfterNextReturns | apps/www/app/components/GoToPreviousChunk.tsx:58-62 | with distinct ids, previous after next is back to the chunk left |
| RouteData.MatchesData | apps/www/app/utils/data.ts:17-26 | the data of the first matched route with the id, None without one |
| RouteData.ProjectId | apps/www/app/utils/data.ts:43-55 | some exactly when the dashboard's `projectId` is a non-empty string |
| RouteData.Chunks | apps/www/app/utils/data.ts:81-83 | some exactly when `chunks` is an array |
| RouteData.FindChunk | apps/www/app/utils/data.ts:86-89 | the first truthy object with the id, None exactly when there is none |
| RouteData.UseChunk | apps/www/app/utils/data.ts:74-90 | the first chunk of the list with the id |
| RouteData.IdOf | apps/www/app/utils/data.ts:116 | reading `id` fails exactly on null |
| RouteData.IdsOf | apps/www/app/utils/data.ts:116 | fails exactly when the list holds null; otherwise each element's `id` in order |
| RouteData.ChunkIds | apps/www/app/utils/data.ts:109-117 | None without a chunk list, else the ids |
| RouteData.ChunkFoundIffIdListed | apps/www/app/utils/data.ts:74-117 | for a list of objects, `useChunk` finds a chunk exactly when its id is among `useChunkIds` |
| DashboardChunks.FilePathOfPublishedId | apps/www/app/routes/_dashboard.chunks.tsx:25 | the path decoded from an id `publish` made is the published file |
| DashboardChunks.Views | apps/www/app/routes/_dashboard.chunks.tsx:23-26 | each chunk with the path its id decodes to, in order |
| DashboardChunks.Loader | apps/www/app/routes/_dashboard.chunks.tsx:17-28 | the session guard's redirect is thrown; a null chunk list fails; otherwise the project's chunks, each with its path |
| DashboardChunks.RowsFromShape | apps/www/app/routes/_dashboard.chunks.tsx:63-77 | items at even offsets and separators between them |
| DashboardChunks.RowsShape | apps/www/app/routes/_dashboard.chunks.tsx:60-77 | empty shows "No chunks published"; otherwise one item per chunk in order, a separator between consecutive ones and none after the last, selected exactly for the route's id |
| Hast.SetProperty | apps/www/app/lib/shiki/transformers/metaFilename.ts:21 | only the named property changes |
| ShikiLineNumbers.LinesBefore | apps/www/app/lib/shiki/transformers/metaLimenumbers.ts:24-37 | no more line spans than children |
| ShikiLineNumbers.NumberLines | apps/www/app/lib/shiki/transformers/metaLimenumbers.ts:24-37 | each child is its numbered form: a line span gets one more than the line spans before it, any other child is kept; the count ends one past the number of line spans |
| ShikiLineNumbers.FindCode | apps/www/app/lib/shiki/transformers/metaLimenumbers.ts:20-22 | the first `code` child, None exactly when there is none |
| ShikiLineNumbers.Pre | apps/www/app/lib/shiki/transformers/metaLimenumbers.ts:14-39 | "nonumber" leaves the node; otherwise the flag is set and only the code child's line spans change |
| ShikiLineNumbers.LaterLinesHaveHigherNumbers | apps/www/app/lib/shiki/transformers/metaLimenumbers.ts:24-37 | a later line span gets a higher number |
| ShikiLineNumbers.EveryNumberGiven | apps/www/app/lib/shiki/transformers/metaLimenumbers.ts:24-37 | every number from 1 to the count is given to a line span |
| ShikiLineNumbers.LineNumbersDistinct | apps/www/app/lib/shiki/transformers/metaLimenumbers.ts:24-37 | no two line spans share a number |
| ShikiLineNumbers.NumberingTouchesOnlyDataName | apps/www/app/lib/shiki/transformers/metaLimenumbers.ts:28-31 | a numbered span differs only in the data property |
| ShikiFilename.FirstMatch | apps/www/app/lib/shiki/transformers/metaFilename.ts:18 | the leftmost index where `filename=\S` matches |
| ShikiFilename.Filename | apps/www/app/lib/shiki/transformers/metaFilename.ts:18-19 | a non-empty space-free capture, None exactly when there is no match |
| ShikiFilename.Pre | apps/www/app/lib/shiki/transformers/metaFilename.ts:14-22 | no or empty meta, or no match, leaves the node; otherwise only the data property changes, set to the capture |
| ShikiFilename.FilenameOfMeta | apps/www/app/lib/shiki/transformers/metaFilename.ts:18-19 | `filename=name` followed by a space or the end yields exactly the name |
| ShikiFilename.FirstMatchFrom | apps/www/app/lib/shiki/transformers/metaFilename.ts:18 | the search finds the first match at or after its start |
| ShikiFilename.NoKeyNoChange | apps/www/app/lib/shiki/transformers/metaFilename.ts:16-19 | meta without `filename=` leaves the node exactly as it was |
| InitCli.AcceptsHostIffPattern | packages/cli/src/cmds/init.ts:66 | the scan accepts exactly what the regular expression matches |
| InitCli.PatternAtIsScan | packages/cli/src/cmds/init.ts:66 | any split the pattern allows is the one the scan finds |
| InitCli.ScanOkIff | packages/cli/src/cmds/init.ts:66 | the scan's position checks are the pattern's parts |
| InitCli.AcceptedHostShape | packages/cli/src/cmds/init.ts:66 | only http and https pass, with a host of dotted words |
| InitCli.RenderHostAccepted | packages/cli/src/cmds/init.ts:69 | the first example of the message is accepted |
| InitCli.LocalHostAccepted | packages/cli/src/cmds/init.ts:69 | the second example, with a port, is accepted |
| InitCli.DoubleDotRefused | packages/cli/src/cmds/init.ts:66 | a doubled dot in the host is refused |
| InitCli.QueryRefused | packages/cli/src/cmds/init.ts:66 | a query string is refused |
| InitCli.FtpRefused | packages/cli/src/cmds/init.ts:66 | another scheme is refused |
| InitCli.Init | packages/cli/src/cmds/init.ts:34-56 | host check, then the existing-file check, then creation; each failure ends the action |
| InitCli.ChecksPrecedeCreation | packages/cli/src/cmds/init.ts:42-48 | with a bad host or an existing `rechunk.json` the API answer does not matter |
| Paths.Dirname | packages/babel-plugin/src/index.ts:198-201 | "." for the empty path and for a name without a directory part, "/" for one directly under the root |
| Paths.Basename | packages/utils/src/index.ts:148 | the result holds no '/' |
| Paths.JoinPath | packages/babel-plugin/src/index.ts:198-201 | the directory, a '/' and the name; the name alone after an empty directory |
| Paths.DirnameOfJoin | packages/utils/src/index.ts:34-48 | the directory of a joined name is the directory |
| Paths.BasenameOfJoin | packages/utils/src/index.ts:148 | the base name of a joined name is the name |
| Utils.GetRealPath | packages/utils/src/index.ts:18-24 | the resolved path, or the path itself when resolving fails |
| Utils.FindClosestJson | packages/utils/src/index.ts:34-48 | the file in the start directory when it loads there, `{}` once the level limit is reached |
| Utils.FirstFoundMeaning | packages/utils/src/index.ts:34-48 | `{}` when no directory has the file, otherwise the first one's |
| Utils.FindClosestJsonTriesAncestors | packages/utils/src/index.ts:34-48 | the search tries exactly the directories from the start upwards, at most 11 |
| Utils.FindWorkspaceDir | packages/utils/src/index.ts:61-74 | a non-empty `WORKSPACE_DIR` is the answer; no answer exactly when it is unset and no lockfile is found |
| Utils.WorkspaceEnvIgnoresFilesystem | packages/utils/src/index.ts:62-64 | a set `WORKSPACE_DIR` decides alone |
| Utils.FoundLockfileDirectory | packages/utils/src/index.ts:66-73 | otherwise the found lockfile's directory |
| Utils.Flags | packages/utils/src/index.ts:116 | every user's processes unless `all` is false |
| Utils.DataLines | packages/utils/src/index.ts:125-129 | one line fewer than the trimmed output has |
| Utils.HeaderDropped | packages/utils/src/index.ts:125-129 | the header goes and every other line stays, in order |
| Utils.CmdIsTextAfterFirstSpace | packages/utils/src/index.ts:133-134 | pid and command split the trimmed line at its first space |
| Utils.CmdOfSpacelessLine | packages/utils/src/index.ts:133-134 | a line without a space is all pid |
| Utils.CmdTableLookup | packages/utils/src/index.ts:131-135 | the table holds exactly the pids of the lines, each with its last line's command |
| Utils.TableOfLookup | packages/utils/src/index.ts:131-135 | later assignments to a key win |
| Utils.BuildCmdTable | packages/utils/src/index.ts:131-135 | the loop's table is CmdTable of the lines |
| Utils.MatchPsWellFormed | packages/utils/src/index.ts:105-106 | each group holds what its part of the pattern allows |
| Utils.PsLineMatches | packages/utils/src/index.ts:105-106 | any line in the column layout of `ps` matches and the groups are its columns |
| Utils.NoLeadingPidNoMatch | packages/utils/src/index.ts:105-106 | a line not starting with blanks and a digit does not match |
| Utils.ParseIntPrefix | packages/utils/src/index.ts:143-145 | NaN exactly when no digit follows the optional minus sign |
| Utils.ParseIntOfDigits | packages/utils/src/index.ts:143-145 | digits read as their value, negated after a minus |
| Utils.DecimalValueOfDigits | packages/utils/src/index.ts:143-145 | a number's digits read back as the number |
| Utils.ToProcess | packages/utils/src/index.ts:137-151 | "ps output parsing failed" when the pattern fails, a TypeError without the command name; otherwise pid, ppid and name from the match and the command from the table, if its pid is there |
| Utils.MapResultsFirstError | packages/utils/src/index.ts:137-151 | the first line that throws decides the error |
| Utils.MapResultsAllOk | packages/utils/src/index.ts:137-151 | without errors, every line's entry in order |
| Utils.FirstBadLineThrows | packages/utils/src/index.ts:139 | a line failing the pattern after good ones makes the call throw |
| Utils.EveryLineListed | packages/utils/src/index.ts:137-151 | one entry per line, in order |
| Utils.ProcessCmdFromArgs | packages/utils/src/index.ts:149 | a process's command line is the one of the last `pid,args` line with its pid |
| Utils.ProcessWithoutArgsLine | packages/utils/src/index.ts:149 | a process no such line names has none |
| Utils.NonWindowsCall | packages/utils/src/index.ts:115-152 | the result is ListProcesses of what `ps` printed |
| Utils.AnyDevServer | packages/utils/src/index.ts:171-177 | true exactly when some process passes the test |
| Utils.IsRechunkDevServerRunning | packages/utils/src/index.ts:164-178 | the test applied to the process list and workspace |
| Utils.NodeModulesServerCounts | packages/utils/src/index.ts:175 | a server run from the installed package counts |
| Utils.WorkspaceServerCounts | packages/utils/src/index.ts:176 | a server run from the workspace counts |
| Utils.OtherCommandsDoNotCount | packages/utils/src/index.ts:174 | a command line without "rechunk dev-server" never counts |
| Workspace.WorkspaceEnv | packages/babel-plugin/src/lib/workspace.ts:23-25 | the upper-case variable when set, else the lower-case one, none when neither is set |
| Workspace.FindWorkspaceDir | packages/babel-plugin/src/lib/workspace.ts:22-41 | a `.yml` manifest throws naming it; no manifest gives none; otherwise the manifest's directory |
| Workspace.UpperCaseVariableWins | packages/babel-plugin/src/lib/workspace.ts:23-25 | the upper-case variable wins, and either over the disk |
| Workspace.EnvironmentDirectoryIsWorkspace | packages/babel-plugin/src/lib/workspace.ts:27-40 | a directory from the environment is the answer |
| Workspace.MisnamedManifestThrows | packages/babel-plugin/src/lib/workspace.ts:33-38 | a `.yml` manifest throws, naming the file |
| Workspace.FoundManifestDirectory | packages/babel-plugin/src/lib/workspace.ts:27-40 | a found manifest gives its directory |
| BabelPlugin.CacheLookup | packages/babel-plugin/src/index.ts:88-97 | a truthy cached value is returned and nothing changes; otherwise the search result is returned and stored |
| BabelPlugin.SearchedAtMostOnce | packages/babel-plugin/src/index.ts:88-97 | once a key is truthy, later lookups do not search |
| BabelPlugin.LookupKeepsOtherKeys | packages/babel-plugin/src/index.ts:88-97 | a lookup changes no other key |
| BabelPlugin.FileCache.GetCachedJson | packages/babel-plugin/src/index.ts:88-97 | result and cache are CacheLookup's |
| BabelPlugin.EntryTarget | packages/babel-plugin/src/index.ts:168-170 | throws exactly when `entry` is undefined or null, otherwise gives the chunk's entry |
| BabelPlugin.ImportChunkOnlyOffline | packages/babel-plugin/src/index.ts:153-159 | only an offline build's `importChunk('literal')` changes |
| BabelPlugin.ImportChunkTarget | packages/babel-plugin/src/index.ts:198-241 | a rewritten call imports the configured entry, relative to the file, and the entry exists |
| BabelPlugin.MissingEntryThrows | packages/babel-plugin/src/index.ts:172-195 | an offline build fails on a key without an entry |
| BabelPlugin.MissingFileThrows | packages/babel-plugin/src/index.ts:203-232 | an offline build fails on an entry whose file is missing |
| BabelPlugin.VisitCall | packages/babel-plugin/src/index.ts:119-243 | the rewrite and the cache are those of the visitor's specification |
| BabelPlugin.RunRequireMeaning | packages/babel-plugin/src/index.ts:338-371 | it loads exactly the allowed ids, each as itself, and null otherwise |
| BabelPlugin.DependencyNames | packages/babel-plugin/src/index.ts:338-371 | every name under `dependencies` is listed |
| BabelPlugin.ExternalNames | packages/babel-plugin/src/index.ts:338-371 | every string in `external` is listed |
| BabelPlugin.TslibAlwaysAllowed | packages/babel-plugin/src/index.ts:338-371 | tslib is always loadable |
| BabelPlugin.RewriteEnvRead | packages/babel-plugin/src/index.ts:252-389 | a configuration literal replaces only project, read key and host reads outside assignments and the public key inside one, each with its field |
| BabelPlugin.ProjectAndReadKeyOutsideAssignments | packages/babel-plugin/src/index.ts:275-292 | project and read key are replaced only where read |
| BabelPlugin.GlobalAndPublicKeyInsideAssignments | packages/babel-plugin/src/index.ts:332-388 | global and public key are replaced only where assigned |
| BabelPlugin.HostByEnvironment | packages/babel-plugin/src/index.ts:295-329 | the configured host in prod or without an environment; the dev server in dev, if it runs |
| BabelPlugin.GeneratedRequireAllowList | packages/babel-plugin/src/index.ts:332-378 | the inlined `require` returns a module exactly for the allowed ids |
| BabelPlugin.DevServerRunning | packages/babel-plugin/src/lib/cache.ts:40-53 | the dev-server test on the process list and the workspace |
| BabelPlugin.VisitEnvRead | packages/babel-plugin/src/index.ts:252-389 | the rewrite and cache are those of the specification, after two lookups |
| EndToEnd.ControllerReplyRejected | app/src/controllers/chunk.ts:34-38 | the controller's `{data, hash, sig}` reply carries no token, so the default resolver rejects it |
| EndToEnd.ServedChunkImports | packages/core/src/ChunkManager.ts:210-240 | a chunk the dev server serves under a PEM private key imports as a component running exactly the bundled code, cached and announced |
| EndToEnd.AnsweredChunkResolves | packages/core/src/ChunkManager.ts:55-83 | a reply with non-empty data and token resolves to exactly that chunk |
| EndToEnd.VerifiedChunkImports | packages/core/src/ChunkManager.ts:226-234 | with verification on and nothing cached, a resolved chunk whose token vouches for it imports as a component of its data, cached under the id and announced |
| EndToEnd.ImportsAnsweredChunk | packages/core/src/ChunkManager.ts:210-240 | with the default resolver, verification on and nothing cached, a non-empty reply whose token vouches for its data imports that data as a component |
| EndToEnd.ServedBodyFields | packages/cli/src/cmds/dev-server.ts:124-127 | the served body reads back as the bundled code under `data` and the issued token under `token` |

## Left out

- Input and output are parameters or left out:
  - the network, HTTP servers, rollup bundling, the file system, `execFileSync`, the clock and
    the random UUIDs and keys;
  - console output, chalk colours and the `warning` on turning verification off.
- Concurrency is left out: every async step is taken in order, once.
- `new Function` is modelled as a `Component` value that records the code and the global object.
- The `TinyEmitter` base class is left out; an import records the one id it emits.
- Real cryptography is left out. SHA-256 and RSA are uninterpreted functions of a `Suite`. The
  only facts assumed about them are that a signature verifies under the matching public key and
  that public keys are PEM text.
- Only the JWS header form `{"alg":"X"}` and only SHA-256 with RS256 are modelled.
- The `cache.ts` MD5 file keys are left out.
- The stores are modelled as maps over serial ids:
  - the prisma and drizzle tables;
  - `findFirst` is the row with the lowest id, the order the tables are assumed to return rows in.
- Cookie signing and serialisation are left out. A session is the map of its data.
- URL parsing is left out: pathname, search and query parameters are given as strings.
- `getChunksByProjectId` and `getVerifiedProjectId` are parameters; their bodies are not part of
  this model.
- The `readAuth` and `writeAuth` middleware are a parameter of `ChunkRoutes.Handle`; their source
  is not part of this model.
- `generateToken` and `verifyToken` are parameters; their source is not part of this model.
- Chunk timestamps are opaque integers.
- `parseFloat` of cpu and memory is left out: they are kept as the matched text.
- `path.join` is modelled without normalisation, for a directory and a plain name.
- `path.resolve` and `path.relative` are parameters.
- `Object.keys` puts integer-like keys first. This ordering is not modelled: dependency names
  keep their order in the file.
- External entries that are not strings are dropped.
- The Babel AST is modelled as the values that replace each node; AST construction and the
  validation of literal types are left out.
- The hast nodes that the transformers change in place are modelled as values. The model returns
  the updated node and assumes that no node is shared between two places in the tree.
- UTF-16 lone surrogates are left out: strings are sequences of Unicode scalar values.
- The text of error messages built with `dedent` and chalk is reduced to the message itself.
- DevServer.Handle: models the corrected handler, which captures the chunk id from the pathname.
  As written, the capture runs on the path with its query, so `/projects/a/chunks/b?x=/chunks/c`
  serves chunk `c`. That behaviour is `DevServer.RouteAsWritten`, shown by
  `DevServer.AsWrittenServesQueryChunk`, and Handle does not reproduce it.
- ProjectRoutes.Create: models the corrected reply, which carries the stored PEM texts. As
  written, the reply carries the `KeyObject`s, which `JSON.stringify` writes as `{}`. That reply
  is `ProjectRoutes.ReplyAsWritten`, shown by `ProjectRoutes.ReplyAsWrittenLosesKeys`, and Create
  does not reproduce it.
- ChunkCore.ChunkManager.ImportChunk: ids that name `Object.prototype` members are not modelled.
  Examples are "toString", "constructor", "hasOwnProperty" and "__proto__". On the plain `{}`
  cache, such an id finds the inherited member and is returned without resolving. The model
  treats it like any other id: it resolves, verifies and caches it. The same holds for
  ChunkCore.ImportSpec.
- ChunkCore.ImportSpec: the code of a chunk is not run, so whether its `module.exports` is truthy
  is a parameter (`ExportsTruthy`). A cached component is a hit exactly when that parameter says
  so, as `if (this.cache[chunkId])` tests it.
- DevServer.IssueToken: `KEYUTIL.getKey` is modelled by one test: the private key must contain
  the PEM marker "-----BEGIN ". A key that passes is assumed readable; a key that fails throws
  "not supported argument" before anything is written.
- BabelPlugin.RewriteEnvRead: a `rechunk.json` that holds `null` makes the destructuring at
  packages/babel-plugin/src/index.ts:272 throw a TypeError. The model reads the file as an object
  and does not model that throw.
- BabelPlugin.ExternalNames: `...external` at packages/babel-plugin/src/index.ts:338-344 spreads
  a string `external` into its characters and throws on an object or a number. The model lists
  only the strings of an `external` array and treats any other value as an empty list.
- ErrorHandler.HandleError: `handleError(null)` and `handleError(undefined)` throw on
  `error.message` (apps/www/app/utils/error.ts:7). The model takes the error's `message` field as
  an optional value and does not model that throw.
- JSON numbers are integers. Fractions and exponents such as 0.5 and 1e-3 are not
  modelled.
- ProjectRoutes.BasicCredentials: hono's `basicAuth` checks the header against a pattern that
  admits a case-insensitive scheme, extra spaces and only base64 characters. Those checks are not
  modelled; hono's source is not part of this model. The model requires exactly "Basic " and
  decodes the rest with the forgiving base64 decoder.

## Findings

| source | as written | input that shows it | evidently intended | confidence | as-written member | corrected member |
|---|---|---|---|---|---|---|
| app/src/controllers/project.ts:68-76 | the reply puts the `KeyObject`s of `generateKeyPairSync` into `publicKey` and `privateKey`, and `JSON.stringify` writes them as `{}` | any POST `/` that creates a project | the reply carries the exported PEM texts that were stored, which `rechunk.json` needs | not executed | ProjectRoutes.ReplyAsWrittenLosesKeys | ProjectRoutes.ReplyMatchesStoredRow |
| packages/cli/src/cmds/dev-server.ts:82-86 | the route test runs on the pathname, but the capture runs on `path`, which also holds the query string; the greedy `.*` then takes the last "/chunks/" | `/projects/a/chunks/b?x=/chunks/c` is served chunk `c` | the chunk the pathname names (`b`) | not executed | DevServer.AsWrittenServesQueryChunk | DevServer.RouteServesPathnameChunk |
