/**
 * `transformerMetaLineNumbers` of `apps/www/app/lib/shiki/transformers/metaLimenumbers.ts`: the
 * `pre` hook marks the block and numbers the line spans of its `code` child.
 */
module ShikiLineNumbers {
  import opened Wrappers
  import opened Text
  import opened Hast

  const DefaultDataName: string := "data-line-number"
  const NoNumber: string := "nonumber"

  /** A line of highlighted code: a `span` whose string `class` contains `line`. */
  predicate IsLineSpan(n: Node) {
    n.Element? && n.tagName == "span" && "class" in n.properties
    && n.properties["class"].PString? && Contains(n.properties["class"].s, "line")
  }

  /** The number of line spans among the first `k` children. */
  function LinesBefore(children: seq<Node>, k: nat): (r: nat)
    requires k <= |children|
    ensures r <= k
  {
    if k == 0 then 0
    else LinesBefore(children, k - 1) + (if IsLineSpan(children[k - 1]) then 1 else 0)
  }

  /** The child at `k` after numbering: a line span gets its position among the line spans. */
  function NumberedChild(children: seq<Node>, k: nat, dataName: string): Node
    requires k < |children|
  {
    if IsLineSpan(children[k]) then SetProperty(children[k], dataName, PNumber(1 + LinesBefore(children, k)))
    else children[k]
  }

  /**
   * The `forEach` over the `code` element's children: each line span gets the current count,
   * which then goes up by one; the result is the new children and the final count.
   */
  method NumberLines(children: seq<Node>, dataName: string) returns (out: seq<Node>, count: int)
    ensures |out| == |children|
    ensures forall k :: 0 <= k < |children| ==> out[k] == NumberedChild(children, k, dataName)
    ensures count == 1 + LinesBefore(children, |children|)
  {
    out := [];
    count := 1;
    var i := 0;
    while i < |children|
      invariant 0 <= i <= |children| && |out| == i
      invariant forall k :: 0 <= k < i ==> out[k] == NumberedChild(children, k, dataName)
      invariant count == 1 + LinesBefore(children, i)
    {
      var it := children[i];
      if IsLineSpan(it) {
        it := SetProperty(it, dataName, PNumber(count));
        count := count + 1;
      }
      out := out + [it];
      i := i + 1;
    }
  }

  /** The first child that is a `code` element. */
  function FindCode(children: seq<Node>): (r: Option<nat>)
    ensures r.Some? ==> r.value < |children| && children[r.value].Element? && children[r.value].tagName == "code"
    ensures r.Some? ==> forall j :: 0 <= j < r.value ==> !(children[j].Element? && children[j].tagName == "code")
    ensures r.None? ==> forall j :: 0 <= j < |children| ==> !(children[j].Element? && children[j].tagName == "code")
  {
    if |children| == 0 then None
    else if children[0].Element? && children[0].tagName == "code" then Some(0)
    else
      match FindCode(children[1..])
      case None => None
      case Some(k) => Some(k + 1)
  }

  /** `meta?.__raw?.includes('nonumber')`. */
  predicate SkipsNumbers(meta: Option<string>) {
    meta.Some? && Contains(meta.value, NoNumber)
  }

  /**
   * The `pre` hook on the `pre` element `node` with the raw meta string `meta`; `dataName` is the
   * option, `data-line-number` when not given.
   */
  method Pre(node: Node, meta: Option<string>, dataName: Option<string>) returns (r: Node)
    requires node.Element?
    ensures SkipsNumbers(meta) ==> r == node
    ensures !SkipsNumbers(meta) ==>
              && r.Element? && r.tagName == node.tagName
              && r.properties == node.properties[dataName.GetOr(DefaultDataName) := PTrue]
              && |r.children| == |node.children|
    ensures !SkipsNumbers(meta) ==>
              forall j :: 0 <= j < |node.children| && Some(j) != FindCode(node.children) ==> r.children[j] == node.children[j]
    ensures !SkipsNumbers(meta) && FindCode(node.children).Some? ==>
              var k := FindCode(node.children).value;
              var code := node.children[k];
              && r.children[k].Element? && r.children[k].tagName == "code"
              && r.children[k].properties == code.properties
              && |r.children[k].children| == |code.children|
              && forall j :: 0 <= j < |code.children| ==>
                   r.children[k].children[j] == NumberedChild(code.children, j, dataName.GetOr(DefaultDataName))
  {
    if SkipsNumbers(meta) {
      return node;
    }
    var name := dataName.GetOr(DefaultDataName);
    r := SetProperty(node, name, PTrue);
    match FindCode(r.children) {
      case None =>
      case Some(k) =>
        var code := r.children[k];
        if |code.children| > 0 {
          var numbered, _ := NumberLines(code.children, name);
          r := r.(children := r.children[k := code.(children := numbered)]);
        }
    }
  }

  /** The count after a line span is one more than before it: numbers go up in steps of one. */
  lemma {:induction false} LaterLinesHaveHigherNumbers(children: seq<Node>, k: nat, k': nat)
    requires k < k' <= |children| && IsLineSpan(children[k])
    ensures LinesBefore(children, k) < LinesBefore(children, k')
    decreases k'
  {
    if k' > k + 1 {
      LaterLinesHaveHigherNumbers(children, k, k' - 1);
    }
  }

  /**
   * Every number from 1 to the number of line spans is given to exactly one line span: the
   * line spans are numbered 1, 2, 3, ... in the order they appear.
   */
  lemma {:induction false} EveryNumberGiven(children: seq<Node>, n: nat, i: nat)
    requires i <= |children| && 1 <= n <= LinesBefore(children, i)
    ensures exists k :: 0 <= k < i && IsLineSpan(children[k]) && 1 + LinesBefore(children, k) == n
    decreases i
  {
    if LinesBefore(children, i - 1) >= n {
      EveryNumberGiven(children, n, i - 1);
    } else {
      assert IsLineSpan(children[i - 1]) && 1 + LinesBefore(children, i - 1) == n;
    }
  }

  lemma LineNumbersDistinct(children: seq<Node>, k: nat, k': nat, dataName: string)
    requires k < |children| && k' < |children| && k != k'
    requires IsLineSpan(children[k]) && IsLineSpan(children[k'])
    ensures NumberedChild(children, k, dataName).properties[dataName]
         != NumberedChild(children, k', dataName).properties[dataName]
  {
    if k < k' { LaterLinesHaveHigherNumbers(children, k, k'); }
    else { LaterLinesHaveHigherNumbers(children, k', k); }
  }

  /** A numbered line span changes only in the `dataName` property. */
  lemma NumberingTouchesOnlyDataName(children: seq<Node>, k: nat, dataName: string)
    requires k < |children| && IsLineSpan(children[k])
    ensures var n := NumberedChild(children, k, dataName);
            && n.tagName == children[k].tagName && n.children == children[k].children
            && (forall p :: p in children[k].properties && p != dataName ==> p in n.properties && n.properties[p] == children[k].properties[p])
            && n.properties[dataName] == PNumber(1 + LinesBefore(children, k))
  {
  }
}
