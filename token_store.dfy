/**
 * The token table of `apps/www/app/models/token.server.ts`: login tokens stored per project and
 * consumed by their first successful verification.
 */
module Tokens {
  import opened Wrappers
  import opened Json

  datatype TokenRow = TokenRow(token: string, projectId: string)

  const DefaultSecret: string := ""
  const DefaultTtl: nat := 3600

  /** `findFirst({where: {projectId, token}})`: the lowest id in `from .. upto` holding `row`. */
  function FirstMatch(rows: map<nat, TokenRow>, row: TokenRow, from: nat, upto: nat): (r: Option<nat>)
    ensures r.Some? ==> from <= r.value < upto && r.value in rows && rows[r.value] == row
    ensures r.Some? ==> forall k :: from <= k < r.value && k in rows ==> rows[k] != row
    ensures r.None? ==> forall k :: from <= k < upto && k in rows ==> rows[k] != row
    decreases upto - from
  {
    if upto <= from then None
    else if from in rows && rows[from] == row then Some(from)
    else FirstMatch(rows, row, from + 1, upto)
  }

  /** Every id in the table is below the next id to hand out. */
  predicate Bounded(rows: map<nat, TokenRow>, upto: nat) {
    forall k :: k in rows ==> k < upto
  }

  /** The ids of the rows holding `row`. */
  function Matching(rows: map<nat, TokenRow>, row: TokenRow): set<nat> {
    set k | k in rows && rows[k] == row
  }

  /**
   * `verifyProjectToken` on the table: `checked` is what `verifyToken(token, secret)` gives
   * (an error for a bad signature or an expired token). The payload comes back, and the first
   * row holding both the project id and the token is deleted, only when both checks pass.
   */
  function VerifySpec(rows: map<nat, TokenRow>, upto: nat, checked: Result<Json>,
                      projectId: string, token: string): (r: (Option<Json>, map<nat, TokenRow>))
    requires Bounded(rows, upto)
    ensures checked.Err? ==> r == (None, rows)
    ensures r.0.Some? <==> checked.Ok? && Matching(rows, TokenRow(token, projectId)) != {}
    ensures r.0.Some? ==> r.0.value == checked.value
    ensures r.0.Some? ==> exists k :: k in Matching(rows, TokenRow(token, projectId)) && r.1 == rows - {k}
    ensures r.0.None? ==> r.1 == rows
  {
    var row := TokenRow(token, projectId);
    if checked.Err? then (None, rows)
    else match FirstMatch(rows, row, 0, upto)
      case None =>
        assert Matching(rows, row) == {};
        (None, rows)
      case Some(k) =>
        assert k in Matching(rows, row);
        (Some(checked.value), rows - {k})
  }

  /** A successful verification uses up exactly one stored copy of the token and keeps the rest. */
  lemma ConsumesOneRow(rows: map<nat, TokenRow>, upto: nat, checked: Result<Json>,
                       projectId: string, token: string)
    requires Bounded(rows, upto)
    requires VerifySpec(rows, upto, checked, projectId, token).0.Some?
    ensures var after := VerifySpec(rows, upto, checked, projectId, token).1;
            var row := TokenRow(token, projectId);
            |Matching(after, row)| == |Matching(rows, row)| - 1
            && forall r :: r != row ==> Matching(after, r) == Matching(rows, r)
  {
    var row := TokenRow(token, projectId);
    var after := VerifySpec(rows, upto, checked, projectId, token).1;
    var k :| k in Matching(rows, row) && after == rows - {k};
    assert Matching(after, row) == Matching(rows, row) - {k};
    forall r | r != row ensures Matching(after, r) == Matching(rows, r) {
      assert rows[k] == row;
    }
  }

  /** Single use: a token stored once is accepted once; the same request again gets null. */
  lemma SecondVerificationFails(rows: map<nat, TokenRow>, upto: nat, checked: Result<Json>,
                                projectId: string, token: string)
    requires Bounded(rows, upto)
    requires |Matching(rows, TokenRow(token, projectId))| <= 1
    ensures var after := VerifySpec(rows, upto, checked, projectId, token).1;
            Bounded(after, upto) && VerifySpec(after, upto, checked, projectId, token).0 == None
  {
    var row := TokenRow(token, projectId);
    var (first, after) := VerifySpec(rows, upto, checked, projectId, token);
    if first.Some? {
      ConsumesOneRow(rows, upto, checked, projectId, token);
      assert |Matching(after, row)| == 0;
    }
  }

  /** A token issued for one project is never accepted for another. */
  lemma NoCrossProjectToken(rows: map<nat, TokenRow>, upto: nat, checked: Result<Json>,
                            issuedFor: string, other: string, token: string)
    requires Bounded(rows, upto)
    requires forall k :: k in rows && rows[k].token == token ==> rows[k].projectId == issuedFor
    requires other != issuedFor
    ensures VerifySpec(rows, upto, checked, other, token) == (None, rows)
  {
    var row := TokenRow(token, other);
    if k :| k in Matching(rows, row) {
      assert rows[k].projectId == other;
    }
  }

  /** The table behind `prisma.token`. */
  class TokenTable {
    var rows: map<nat, TokenRow>
    var nextId: nat

    ghost predicate Valid()
      reads this
    {
      Bounded(rows, nextId)
    }

    constructor ()
      ensures Valid() && rows == map[] && nextId == 0
    {
      rows := map[];
      nextId := 0;
    }

    /**
     * `createProjectToken`: stores a fresh row with the token `generate(secret, ttl)`; the secret
     * defaults to the empty string and the lifetime to an hour. `generate` stands for
     * `generateToken`, which is not part of this model.
     */
    method CreateProjectToken(projectId: string, generate: (string, nat) -> string,
                              secret: string := DefaultSecret, expiresInSeconds: nat := DefaultTtl)
      returns (row: TokenRow)
      requires Valid()
      modifies this
      ensures Valid() && nextId == old(nextId) + 1
      ensures row == TokenRow(generate(secret, expiresInSeconds), projectId)
      ensures rows == old(rows)[old(nextId) := row]
    {
      row := TokenRow(generate(secret, expiresInSeconds), projectId);
      rows := rows[nextId := row];
      nextId := nextId + 1;
    }

    /**
     * `verifyProjectToken`: null when `verifyToken` throws or no row matches; otherwise the
     * matching row is deleted and the payload returned. `verify` stands for `verifyToken`.
     */
    method VerifyProjectToken(projectId: string, token: string,
                              verify: (string, string) -> Result<Json>,
                              secret: string := DefaultSecret)
      returns (payload: Option<Json>)
      requires Valid()
      modifies this
      ensures Valid() && nextId == old(nextId)
      ensures (payload, rows) == VerifySpec(old(rows), old(nextId), verify(token, secret), projectId, token)
    {
      var checked := verify(token, secret);
      if checked.Err? {
        return None;
      }
      var found := FirstMatch(rows, TokenRow(token, projectId), 0, nextId);
      if found.None? {
        return None;
      }
      rows := rows - {found.value};
      payload := Some(checked.value);
    }
  }

  /** A token created for a project verifies once for that project, with the payload `verifyToken` gives. */
  lemma CreatedTokenVerifiesOnce(rows: map<nat, TokenRow>, upto: nat, token: string, projectId: string,
                                 payload: Json)
    requires Bounded(rows, upto)
    requires Matching(rows, TokenRow(token, projectId)) == {}
    ensures var created := rows[upto := TokenRow(token, projectId)];
            var (first, after) := VerifySpec(created, upto + 1, Ok(payload), projectId, token);
            first == Some(payload) && after == rows
            && VerifySpec(after, upto + 1, Ok(payload), projectId, token).0 == None
  {
    var row := TokenRow(token, projectId);
    var created := rows[upto := row];
    assert upto in Matching(created, row);
    assert Matching(created, row) == {upto};
    assert upto !in rows;
    assert created - {upto} == rows;
  }
}
