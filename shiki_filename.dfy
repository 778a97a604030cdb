/**
 * `transformerMetaFilename` of `apps/www/app/lib/shiki/transformers/metaFilename.ts`: the `pre`
 * hook copies the value of `filename=...` from the code block's meta string into a property.
 */
module ShikiFilename {
  import opened Wrappers
  import opened Text
  import opened Hast

  const DefaultDataName: string := "data-filename"
  const Key: string := "filename="

  predicate NotSpace(c: char) {
    !IsSpace(c)
  }

  /** `/filename=(\S+)/` can match at index `i`. */
  predicate MatchesAt(raw: string, i: int) {
    0 <= i && i + |Key| < |raw| && raw[i..i + |Key|] == Key && NotSpace(raw[i + |Key|])
  }

  /** The leftmost index from `i` on where the pattern matches. */
  function FirstMatch(raw: string, i: nat): (r: Option<nat>)
    ensures r.Some? ==> i <= r.value && MatchesAt(raw, r.value)
    ensures r.Some? ==> forall j :: i <= j < r.value ==> !MatchesAt(raw, j)
    ensures r.None? ==> forall j :: i <= j ==> !MatchesAt(raw, j)
    decreases |raw| - i
  {
    if i + |Key| >= |raw| then None
    else if MatchesAt(raw, i) then Some(i)
    else FirstMatch(raw, i + 1)
  }

  /** The captured group: the longest run of non-space characters after the first `filename=`. */
  function Filename(raw: string): (r: Option<string>)
    ensures r.Some? ==> r.value != "" && forall k :: 0 <= k < |r.value| ==> NotSpace(r.value[k])
    ensures r.None? <==> forall j :: 0 <= j ==> !MatchesAt(raw, j)
  {
    match FirstMatch(raw, 0)
    case None => None
    case Some(i) => Some(raw[i + |Key|..RunEnd(raw, i + |Key|, NotSpace)])
  }

  /**
   * The `pre` hook: without a (non-empty) raw meta string or without a match the node is left
   * as it is; otherwise the file name is stored under `dataName`, `data-filename` by default.
   */
  function Pre(node: Node, meta: Option<string>, dataName: Option<string>): (r: Node)
    requires node.Element?
    ensures meta.None? || meta == Some("") ==> r == node
    ensures meta.Some? && Filename(meta.value).None? ==> r == node
    ensures meta.Some? && Filename(meta.value).Some? ==>
              && r.Element? && r.tagName == node.tagName && r.children == node.children
              && r.properties == node.properties[dataName.GetOr(DefaultDataName) := PString(Filename(meta.value).value)]
  {
    if meta.None? || meta.value == "" then node
    else
      match Filename(meta.value)
      case None => node
      case Some(filename) => SetProperty(node, dataName.GetOr(DefaultDataName), PString(filename))
  }

  /**
   * A meta string `before + "filename=" + name + after`, with no earlier `filename=` and `name`
   * ending at a space or at the end, yields exactly `name`.
   */
  lemma FilenameOfMeta(before: string, name: string, after: string)
    requires !Contains(before + "filename", Key)
    requires name != "" && forall k :: 0 <= k < |name| ==> NotSpace(name[k])
    requires after == "" || IsSpace(after[0])
    ensures Filename(before + Key + name + after) == Some(name)
  {
    var raw := before + Key + name + after;
    var i := |before|;
    assert raw[i..i + |Key|] == Key;
    assert raw[i + |Key|] == name[0];
    assert MatchesAt(raw, i);
    NoMatchBefore(before, name + after);
    assert raw == before + Key + (name + after);
    FirstMatchFrom(raw, 0, i);
    NameRunEnds(before, name, after, raw);
  }

  /** No match starts inside `before` when `before + "filename"` holds no `filename=`. */
  lemma NoMatchBefore(before: string, rest: string)
    requires !Contains(before + "filename", Key)
    ensures forall j :: 0 <= j < |before| ==> !MatchesAt(before + Key + rest, j)
  {
    forall j | 0 <= j < |before| ensures !MatchesAt(before + Key + rest, j) {
      MatchBeforeOccurs(before, rest, j);
    }
  }

  /** A match at `j` inside `before` is an occurrence of the key in `before + "filename"`. */
  lemma MatchBeforeOccurs(before: string, rest: string, j: nat)
    requires j < |before|
    ensures MatchesAt(before + Key + rest, j) ==> OccursAt(before + "filename", Key, j)
  {
    var raw := before + Key + rest;
    var prefix := before + "filename";
    if MatchesAt(raw, j) {
      forall m | 0 <= m < |Key| ensures prefix[j + m] == Key[m] {
        assert raw[j..j + |Key|][m] == raw[j + m];
        if j + m >= |before| {
          assert raw[j + m] == Key[j + m - |before|];
          assert prefix[j + m] == "filename"[j + m - |before|];
        }
      }
      assert prefix[j..j + |Key|] == Key;
    }
  }

  /** The run of non-space characters after the key is exactly `name`. */
  lemma NameRunEnds(before: string, name: string, after: string, raw: string)
    requires raw == before + Key + name + after
    requires forall k :: 0 <= k < |name| ==> NotSpace(name[k])
    requires after == "" || IsSpace(after[0])
    ensures raw[|before| + |Key|..RunEnd(raw, |before| + |Key|, NotSpace)] == name
  {
    var s := |before| + |Key|;
    var e := s + |name|;
    forall k | s <= k < e ensures NotSpace(raw[k]) {
      assert raw[k] == name[k - s];
    }
    assert e == |raw| || raw[e] == after[0];
    RunEndAt(raw, s, e, NotSpace);
    assert raw[s..e] == name;
  }

  /** The search from `i` finds `m` when `m` is the first match at or after `i`. */
  lemma {:induction false} FirstMatchFrom(raw: string, i: nat, m: nat)
    requires i <= m && MatchesAt(raw, m)
    requires forall j :: i <= j < m ==> !MatchesAt(raw, j)
    ensures FirstMatch(raw, i) == Some(m)
    decreases m - i
  {
    if i < m {
      FirstMatchFrom(raw, i + 1, m);
    }
  }

  /** A meta string without `filename=` leaves the node exactly as it was. */
  lemma NoKeyNoChange(node: Node, raw: string, dataName: Option<string>)
    requires node.Element? && !Contains(raw, Key)
    ensures Pre(node, Some(raw), dataName) == node
  {
    forall j | 0 <= j ensures !MatchesAt(raw, j) {
      if MatchesAt(raw, j) { assert OccursAt(raw, Key, j); }
    }
  }
}
