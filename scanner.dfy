/**
 * The bounded DOM sweep and the single-node capture of the recorder's
 * scanner object (locator/scanner.js).
 *
 * The classifier, the context-tree builder and the locator are globals whose
 * code is not part of this model; they are carried by the scanner as
 * uninterpreted function values (`Collaborators`).
 */
module Scanner {
  import opened Wrappers

  /** `Node.ELEMENT_NODE` of the DOM. */
  const ELEMENT_NODE: int := 1

  /** The initial value of the scanner's `limit` field. */
  const INITIAL_LIMIT: int := 1000

  /** A DOM node as the scanner sees it: its kind, tag, attributes and ordered child nodes. */
  datatype Node = Node(nodeType: int, tagName: string, attributes: map<string, string>, childNodes: seq<Node>)

  /** One level of the builder's context tree: a tag and the attribute values kept at that level. */
  datatype TreeLevel = TreeLevel(tagName: string, attributes: map<string, string>)
  type ContextTree = seq<TreeLevel>

  /** The hash the classifier returns: the semantic type plus whatever else it records. */
  datatype Hash = Hash(typeName: string, details: map<string, string>)

  /** A classification record: the classifier's hash with `path` (and, for single captures, `time`) assigned onto it. */
  datatype Record = Record(hash: Hash, path: string, time: Option<string>)

  /**
   * The three globals the scanner calls:
   * `classifier(node)` (None for `null`), `builder.build(node, attributes, acc)`
   * and `locator.build(tree, node, type, attributes)`, whose fourth argument
   * is absent (None) when the caller passes only three.
   */
  datatype Collaborators = Collaborators(
    classifier: Node -> Option<Hash>,
    builder: (Node, seq<string>, ContextTree) -> ContextTree,
    locator: (ContextTree, Node, string, Option<seq<string>>) -> string)

  predicate IsElement(n: Node) {
    n.nodeType == ELEMENT_NODE
  }

  /** The record the sweep pushes for a node the classifier accepts. */
  function SweepRecord(env: Collaborators, attributes: seq<string>, n: Node, h: Hash): Record {
    Record(h, env.locator(env.builder(n, attributes, []), n, h.typeName, Some(attributes)), None)
  }

  /** The records the sweep pushes for a node: one if the classifier accepts it, none otherwise. */
  function RecordsAt(env: Collaborators, attributes: seq<string>, n: Node): seq<Record> {
    match env.classifier(n)
    case Some(h) => [SweepRecord(env, attributes, n, h)]
    case None => []
  }

  /** What a sweep does: the `limit` it leaves, the records it appends, and how many calls it makes. */
  datatype SweepResult = SweepResult(limit: int, records: seq<Record>, calls: nat)

  /** One call `parseNodes(array, root, attributes)` with the scanner's limit at `limit`. */
  function Visit(env: Collaborators, limit: int, root: Option<Node>, attributes: seq<string>): SweepResult {
    match root
    case None => SweepResult(limit - 1, [], 1)
    case Some(n) => VisitElement(env, limit, n, attributes)
  }

  /** One call of `parseNodes` on a defined node `n`. */
  function VisitElement(env: Collaborators, limit: int, n: Node, attributes: seq<string>): SweepResult
    decreases n, |n.childNodes| + 1
  {
    var left := limit - 1;
    if left <= 0 then SweepResult(left, [], 1)
    else
      var rest := VisitChildren(env, n, 0, left, attributes);
      SweepResult(rest.limit, RecordsAt(env, attributes, n) + rest.records, rest.calls + 1)
  }

  /** The `for` loop of `parseNodes` over `parent.childNodes`, from index `i` on. */
  function VisitChildren(env: Collaborators, parent: Node, i: nat, limit: int, attributes: seq<string>): SweepResult
    decreases parent, |parent.childNodes| - i
  {
    if i >= |parent.childNodes| then SweepResult(limit, [], 0)
    else
      var child := parent.childNodes[i];
      var first := if IsElement(child) then VisitElement(env, limit, child, attributes) else SweepResult(limit, [], 0);
      var rest := VisitChildren(env, parent, i + 1, first.limit, attributes);
      SweepResult(rest.limit, first.records + rest.records, first.calls + rest.calls)
  }

  // ---------------------------------------------------------------------
  // Reference definition: the pre-order sequence of nodes the sweep visits
  // ---------------------------------------------------------------------

  /** `n` followed by the pre-order of each element child, in `childNodes` order. */
  function PreOrder(n: Node): (r: seq<Node>)
    decreases n, |n.childNodes| + 1
    ensures |r| >= 1 && r[0] == n
  {
    [n] + PreOrderFrom(n, 0)
  }

  /** The pre-order of the element children of `parent` from index `i` on; other children are skipped. */
  function PreOrderFrom(parent: Node, i: nat): seq<Node>
    decreases parent, |parent.childNodes| - i
  {
    if i >= |parent.childNodes| then []
    else
      var child := parent.childNodes[i];
      (if IsElement(child) then PreOrder(child) else []) + PreOrderFrom(parent, i + 1)
  }

  /** The records classifying every node of `nodes` in order would produce. */
  function RecordsOf(env: Collaborators, attributes: seq<string>, nodes: seq<Node>): seq<Record>
  {
    if nodes == [] then [] else RecordsAt(env, attributes, nodes[0]) + RecordsOf(env, attributes, nodes[1..])
  }

  /** How many of `count` pending calls run instead of returning at once when the limit is `limit`. */
  function Served(limit: int, count: nat): (k: nat)
    ensures k <= count
    ensures limit <= 1 ==> k == 0
    ensures limit > 1 ==> k == count || k == limit - 1
    ensures limit > 1 ==> k <= limit - 1
  {
    if limit - 1 <= 0 then 0 else if limit - 1 >= count then count else limit - 1
  }

  // ---------------------------------------------------------------------
  // The sweep against the reference pre-order
  // ---------------------------------------------------------------------

  lemma {:induction false} RecordsOfAppend(env: Collaborators, attributes: seq<string>, a: seq<Node>, b: seq<Node>)
    ensures RecordsOf(env, attributes, a + b) == RecordsOf(env, attributes, a) + RecordsOf(env, attributes, b)
  {
    if a != [] {
      assert (a + b)[1..] == a[1..] + b;
      RecordsOfAppend(env, attributes, a[1..], b);
    } else {
      assert a + b == b;
    }
  }

  /**
   * `r` is what a call (or a run of calls) with budget `limit` does over the
   * nodes `order`: it appends the records of the nodes it can serve, leaves
   * `limit` minus the node count when the budget suffices, and a limit that is
   * not positive when it does not.
   */
  ghost predicate ServesPrefix(env: Collaborators, attributes: seq<string>, r: SweepResult, limit: int, order: seq<Node>) {
    && r.records == RecordsOf(env, attributes, order[..Served(limit, |order|)])
    && (limit - 1 >= |order| ==> r.limit == limit - |order|)
    && (limit - 1 < |order| ==> r.limit <= 0)
  }

  lemma TakeOfAppend<T>(a: seq<T>, b: seq<T>, k: nat)
    requires k <= |b|
    ensures (a + b)[..|a| + k] == a + b[..k]
  {
    assert forall j :: 0 <= j < |a| + k ==> (a + b)[..|a| + k][j] == (a + b[..k])[j];
  }

  /** Serving `a` and then `b` with what is left serves `a + b`. */
  lemma ServesPrefixAppend(env: Collaborators, attributes: seq<string>, first: SweepResult, rest: SweepResult,
                           limit: int, a: seq<Node>, b: seq<Node>)
    requires ServesPrefix(env, attributes, first, limit, a)
    requires ServesPrefix(env, attributes, rest, first.limit, b)
    ensures ServesPrefix(env, attributes, SweepResult(rest.limit, first.records + rest.records, 0), limit, a + b)
  {
    var ka := Served(limit, |a|);
    var kb := Served(first.limit, |b|);
    if limit - 1 >= |a| {
      assert Served(limit, |a| + |b|) == |a| + kb;
      TakeOfAppend(a, b, kb);
      assert a[..ka] == a;
      RecordsOfAppend(env, attributes, a, b[..kb]);
    } else {
      assert Served(limit, |a| + |b|) == ka;
      assert (a + b)[..ka] == a[..ka];
      assert b[..kb] == [];
    }
  }

  /**
   * The main theorem about one call on a node: the records appended are those
   * of the first `limit - 1` nodes of the pre-order (all of them when the
   * budget suffices), and the limit left is `limit` minus the node count when
   * the budget suffices, and not positive otherwise.
   */
  lemma {:induction false} VisitElementPrefix(env: Collaborators, limit: int, n: Node, attributes: seq<string>)
    decreases n, |n.childNodes| + 1
    ensures ServesPrefix(env, attributes, VisitElement(env, limit, n, attributes), limit, PreOrder(n))
  {
    var order := PreOrder(n);
    if limit - 1 > 0 {
      var after := PreOrderFrom(n, 0);
      VisitChildrenPrefix(env, n, 0, limit - 1, attributes);
      var k := Served(limit - 1, |after|);
      assert Served(limit, |order|) == 1 + k;
      assert order[..1 + k] == [n] + after[..k];
      assert ([n] + after[..k])[1..] == after[..k];
    }
  }

  /** The same theorem for the loop over `parent.childNodes` from index `i`. */
  lemma {:induction false} VisitChildrenPrefix(env: Collaborators, parent: Node, i: nat, limit: int, attributes: seq<string>)
    decreases parent, |parent.childNodes| - i
    ensures ServesPrefix(env, attributes, VisitChildren(env, parent, i, limit, attributes), limit, PreOrderFrom(parent, i))
  {
    if i < |parent.childNodes| {
      var child := parent.childNodes[i];
      var a := if IsElement(child) then PreOrder(child) else [];
      var first := if IsElement(child) then VisitElement(env, limit, child, attributes) else SweepResult(limit, [], 0);
      if IsElement(child) {
        VisitElementPrefix(env, limit, child, attributes);
      }
      VisitChildrenPrefix(env, parent, i + 1, first.limit, attributes);
      var rest := VisitChildren(env, parent, i + 1, first.limit, attributes);
      ServesPrefixAppend(env, attributes, first, rest, limit, a, PreOrderFrom(parent, i + 1));
    }
  }

  /** When the budget covers every node, the sweep is complete: one record per accepted node, in pre-order. */
  lemma CompleteUnderBudget(env: Collaborators, limit: int, n: Node, attributes: seq<string>)
    requires limit > |PreOrder(n)|
    ensures VisitElement(env, limit, n, attributes).records == RecordsOf(env, attributes, PreOrder(n))
    ensures VisitElement(env, limit, n, attributes).limit == limit - |PreOrder(n)|
  {
    VisitElementPrefix(env, limit, n, attributes);
    assert PreOrder(n)[..|PreOrder(n)|] == PreOrder(n);
  }

  lemma {:induction false} RecordsOfLength(env: Collaborators, attributes: seq<string>, nodes: seq<Node>)
    ensures |RecordsOf(env, attributes, nodes)| <= |nodes|
    ensures (forall k :: 0 <= k < |nodes| ==> env.classifier(nodes[k]).Some?) ==> |RecordsOf(env, attributes, nodes)| == |nodes|
  {
    if nodes != [] {
      RecordsOfLength(env, attributes, nodes[1..]);
      assert forall k :: 1 <= k < |nodes| ==> nodes[1..][k - 1] == nodes[k];
    }
  }

  /** Classifying a prefix of the nodes yields a prefix of the records. */
  lemma RecordsOfPrefix(env: Collaborators, attributes: seq<string>, nodes: seq<Node>, k: nat)
    requires k <= |nodes|
    ensures RecordsOf(env, attributes, nodes[..k]) <= RecordsOf(env, attributes, nodes)
  {
    assert nodes == nodes[..k] + nodes[k..];
    RecordsOfAppend(env, attributes, nodes[..k], nodes[k..]);
  }

  /** A call never appends more than `limit - 1` records, and what it appends plus what it leaves usable never exceeds what it had. */
  lemma RecordsWithinBudget(env: Collaborators, limit: int, root: Option<Node>, attributes: seq<string>)
    ensures var r := Visit(env, limit, root, attributes);
            |r.records| + Max(r.limit - 1, 0) <= Max(limit - 1, 0)
  {
    if root.Some? {
      var order := PreOrder(root.value);
      VisitElementPrefix(env, limit, root.value, attributes);
      RecordsOfLength(env, attributes, order[..Served(limit, |order|)]);
    }
  }

  function Max(a: int, b: int): int {
    if a >= b then a else b
  }

  /** Every call, including one that returns at once, takes exactly one unit of `limit`. */
  lemma {:induction false} VisitElementCalls(env: Collaborators, limit: int, n: Node, attributes: seq<string>)
    decreases n, |n.childNodes| + 1
    ensures var r := VisitElement(env, limit, n, attributes);
            r.calls >= 1 && r.limit == limit - r.calls
  {
    if limit - 1 > 0 {
      VisitChildrenCalls(env, n, 0, limit - 1, attributes);
    }
  }

  lemma {:induction false} VisitChildrenCalls(env: Collaborators, parent: Node, i: nat, limit: int, attributes: seq<string>)
    decreases parent, |parent.childNodes| - i
    ensures var r := VisitChildren(env, parent, i, limit, attributes);
            r.limit == limit - r.calls
  {
    if i < |parent.childNodes| {
      var child := parent.childNodes[i];
      var first := if IsElement(child) then VisitElement(env, limit, child, attributes) else SweepResult(limit, [], 0);
      if IsElement(child) {
        VisitElementCalls(env, limit, child, attributes);
      }
      VisitChildrenCalls(env, parent, i + 1, first.limit, attributes);
    }
  }

  /**
   * The traversal does not depend on the classifier: children are recursed
   * into whether or not their parent was accepted, so the budget spent and
   * the calls made are the same for any two sets of collaborators.
   */
  lemma {:induction false} VisitElementIgnoresClassifier(env1: Collaborators, env2: Collaborators, limit: int, n: Node, attributes: seq<string>)
    decreases n, |n.childNodes| + 1
    ensures VisitElement(env1, limit, n, attributes).limit == VisitElement(env2, limit, n, attributes).limit
    ensures VisitElement(env1, limit, n, attributes).calls == VisitElement(env2, limit, n, attributes).calls
  {
    if limit - 1 > 0 {
      VisitChildrenIgnoresClassifier(env1, env2, n, 0, limit - 1, attributes);
    }
  }

  lemma {:induction false} VisitChildrenIgnoresClassifier(env1: Collaborators, env2: Collaborators, parent: Node, i: nat, limit: int, attributes: seq<string>)
    decreases parent, |parent.childNodes| - i
    ensures VisitChildren(env1, parent, i, limit, attributes).limit == VisitChildren(env2, parent, i, limit, attributes).limit
    ensures VisitChildren(env1, parent, i, limit, attributes).calls == VisitChildren(env2, parent, i, limit, attributes).calls
  {
    if i < |parent.childNodes| {
      var child := parent.childNodes[i];
      var first := if IsElement(child) then VisitElement(env1, limit, child, attributes) else SweepResult(limit, [], 0);
      if IsElement(child) {
        VisitElementIgnoresClassifier(env1, env2, limit, child, attributes);
      }
      VisitChildrenIgnoresClassifier(env1, env2, parent, i + 1, first.limit, attributes);
    }
  }

  /** The loop over children depends only on the children that remain. */
  lemma {:induction false} VisitChildrenSuffix(env: Collaborators, p: Node, i: nat, q: Node, j: nat, limit: int, attributes: seq<string>)
    requires i <= |p.childNodes| && j <= |q.childNodes|
    requires p.childNodes[i..] == q.childNodes[j..]
    decreases |p.childNodes| - i
    ensures VisitChildren(env, p, i, limit, attributes) == VisitChildren(env, q, j, limit, attributes)
  {
    if i < |p.childNodes| {
      assert p.childNodes[i] == p.childNodes[i..][0] == q.childNodes[j];
      assert p.childNodes[i + 1..] == p.childNodes[i..][1..];
      assert q.childNodes[j + 1..] == q.childNodes[j..][1..];
      var child := p.childNodes[i];
      var first := if IsElement(child) then VisitElement(env, limit, child, attributes) else SweepResult(limit, [], 0);
      VisitChildrenSuffix(env, p, i + 1, q, j + 1, first.limit, attributes);
    } else {
      assert |q.childNodes[j..]| == 0;
    }
  }

  /**
   * A child that is not an element neither produces records nor uses budget:
   * the loop over `a + [c] + b` behaves as the loop over `a + b`.
   */
  lemma {:induction false} NonElementChildSkipped(env: Collaborators, p: Node, q: Node, a: seq<Node>, c: Node, b: seq<Node>,
                                                 i: nat, limit: int, attributes: seq<string>)
    requires p.childNodes == a + [c] + b && q.childNodes == a + b
    requires !IsElement(c)
    requires i <= |a|
    decreases |a| - i
    ensures VisitChildren(env, p, i, limit, attributes) == VisitChildren(env, q, i, limit, attributes)
  {
    if i == |a| {
      assert p.childNodes[|a|] == c;
      assert p.childNodes[|a| + 1..] == b == q.childNodes[|a|..];
      VisitChildrenSuffix(env, p, |a| + 1, q, |a|, limit, attributes);
    } else {
      assert p.childNodes[i] == a[i] == q.childNodes[i];
      var child := a[i];
      var first := if IsElement(child) then VisitElement(env, limit, child, attributes) else SweepResult(limit, [], 0);
      NonElementChildSkipped(env, p, q, a, c, b, i + 1, first.limit, attributes);
    }
  }

  /**
   * The budget is not reset between calls: a second sweep of the same
   * document starts from what the first one left, so it yields a prefix of
   * the first sweep's records whatever the first budget was. When the first
   * sweep covered the document but the leftover budget cannot, and every
   * node is accepted, the second sweep yields strictly fewer records.
   */
  lemma SecondSweepInheritsBudget(env: Collaborators, limit: int, n: Node, attributes: seq<string>)
    ensures var first := VisitElement(env, limit, n, attributes);
            var second := VisitElement(env, first.limit, n, attributes);
            && second.records <= first.records
            && (limit > |PreOrder(n)| && limit <= 2 * |PreOrder(n)|
                && (forall k :: 0 <= k < |PreOrder(n)| ==> env.classifier(PreOrder(n)[k]).Some?)
                ==> |second.records| < |first.records|)
  {
    var order := PreOrder(n);
    var first := VisitElement(env, limit, n, attributes);
    VisitElementCalls(env, limit, n, attributes);
    VisitElementPrefix(env, limit, n, attributes);
    VisitElementPrefix(env, first.limit, n, attributes);
    var k1 := Served(limit, |order|);
    var k2 := Served(first.limit, |order|);
    assert k2 <= k1;
    assert order[..k1][..k2] == order[..k2];
    RecordsOfPrefix(env, attributes, order[..k1], k2);
    if limit > |order| && limit <= 2 * |order| && (forall k :: 0 <= k < |order| ==> env.classifier(order[k]).Some?) {
      CompleteUnderBudget(env, limit, n, attributes);
      RecordsOfLength(env, attributes, order);
      RecordsOfLength(env, attributes, order[..k2]);
    }
  }

  /** An element with no attributes and the given children. */
  function Element(tagName: string, children: seq<Node>): Node {
    Node(ELEMENT_NODE, tagName, map[], children)
  }

  /**
   * With `limit` at 2, a sweep of five nested elements that are all accepted
   * yields one record, not two: the limit is decremented before it is
   * checked, so a budget of `b` serves `b - 1` nodes.
   */
  lemma BudgetOfTwoServesOne(env: Collaborators, attributes: seq<string>)
    requires forall m :: env.classifier(m).Some?
    ensures var doc := Element("div", [Element("div", [Element("div", [Element("div", [Element("button", [])])])])]);
            |VisitElement(env, 2, doc, attributes).records| == 1
  {
    var doc := Element("div", [Element("div", [Element("div", [Element("div", [Element("button", [])])])])]);
    VisitElementPrefix(env, 2, doc, attributes);
    assert Served(2, |PreOrder(doc)|) == 1;
    assert PreOrder(doc)[..1] == [doc];
  }

  /**
   * Exhausted calls still run the loop over their siblings and keep
   * decrementing: with `limit` at 2 and three element children, the root is
   * served, every child call returns at once, and `limit` ends at -2.
   */
  lemma ExhaustedCallsKeepDecrementing(env: Collaborators, attributes: seq<string>)
    ensures var doc := Element("ul", [Element("li", []), Element("li", []), Element("li", [])]);
            var r := VisitElement(env, 2, doc, attributes);
            r.limit == -2 && r.calls == 4 && r.records == RecordsAt(env, attributes, doc)
  {
    var li := Element("li", []);
    var doc := Element("ul", [li, li, li]);
    assert VisitChildren(env, doc, 3, -2, attributes) == SweepResult(-2, [], 0);
    assert VisitChildren(env, doc, 2, -1, attributes) == SweepResult(-2, [], 1);
    assert VisitChildren(env, doc, 1, 0, attributes) == SweepResult(-2, [], 2);
    assert VisitChildren(env, doc, 0, 1, attributes) == SweepResult(-2, [], 3);
  }

  // ---------------------------------------------------------------------
  // Single-node capture
  // ---------------------------------------------------------------------

  /** The hash `parseNode` uses when the classifier returns `null`. */
  const DEFAULT_HASH: Hash := Hash("default", map[])

  /**
   * What `parseNode(time, node, attributes)` returns: `{}` (None) for an
   * undefined node; otherwise the classifier's hash, or one of type
   * `'default'`, with `time` and a `path` from the three-argument locator call.
   */
  function Capture(env: Collaborators, time: string, node: Option<Node>, attributes: seq<string>): (r: Option<Record>)
    ensures r.Some? <==> node.Some?
    ensures r.Some? ==> r.value.time == Some(time)
    ensures r.Some? && env.classifier(node.value).Some? ==> r.value.hash == env.classifier(node.value).value
    ensures r.Some? && env.classifier(node.value).None? ==> r.value.hash.typeName == "default"
    ensures r.Some? ==> r.value.path == env.locator(env.builder(node.value, attributes, []), node.value, r.value.hash.typeName, None)
  {
    match node
    case None => None
    case Some(n) =>
      var hash := env.classifier(n).GetOr(DEFAULT_HASH);
      Some(Record(hash, env.locator(env.builder(n, attributes, []), n, hash.typeName, None), Some(time)))
  }

  /**
   * Where the sweep emits a record for its root, a single capture of that
   * node carries the same hash; the two paths come from the same tree and
   * type and differ only in the vocabulary handed to the locator.
   */
  lemma CaptureAgreesWithSweep(env: Collaborators, limit: int, time: string, n: Node, attributes: seq<string>)
    requires limit > 1 && env.classifier(n).Some?
    ensures var swept := VisitElement(env, limit, n, attributes).records;
            var single := Capture(env, time, Some(n), attributes).value;
            && |swept| >= 1
            && swept[0].hash == single.hash
            && swept[0].path == env.locator(env.builder(n, attributes, []), n, single.hash.typeName, Some(attributes))
            && single.path == env.locator(env.builder(n, attributes, []), n, swept[0].hash.typeName, None)
  {
  }

  // ---------------------------------------------------------------------
  // The scanner object
  // ---------------------------------------------------------------------

  /** The caller's `array`, which the sweep pushes records onto. */
  class Collector {
    var items: seq<Record>

    constructor (initial: seq<Record>)
      ensures items == initial
    {
      items := initial;
    }
  }

  /** A placeholder for the decreases clause of `ParseNodes` when the root is undefined (it never recurses then). */
  const LEAF: Node := Node(0, "", map[], [])

  /**
   * The long-lived `scanner` object. `calls`, `served` and `emitted` are
   * ghost counters over the object's whole lifetime: the number of
   * `parseNodes` calls made, of nodes that got past the budget check and
   * were classified, and of records pushed.
   */
  class DomScanner {
    var limit: int
    const env: Collaborators
    ghost var calls: nat
    ghost var served: nat
    ghost var emitted: nat

    /**
     * `limit` is 1000 minus the lifetime calls, at most 999 nodes are ever
     * classified, and no more records are pushed than nodes classified.
     */
    ghost predicate Valid()
      reads this
    {
      && limit == INITIAL_LIMIT - calls
      && emitted <= served
      && served + Max(limit - 1, 0) <= INITIAL_LIMIT - 1
    }

    constructor (env: Collaborators)
      ensures Valid() && this.env == env
      ensures limit == INITIAL_LIMIT && calls == 0 && served == 0 && emitted == 0
    {
      this.env := env;
      limit := INITIAL_LIMIT;
      calls := 0;
      served := 0;
      emitted := 0;
    }

    /**
     * `parseNodes(array, root, attributes)`: decrements `limit`, returns at once
     * when it is no longer positive or `root` is undefined, and otherwise pushes
     * the root's record (if classified) and recurses into the element children.
     * Returns the same collector, with the records of `Visit` appended.
     */
    method ParseNodes(collector: Collector, root: Option<Node>, attributesArray: seq<string>) returns (r: Collector)
      requires Valid()
      modifies this, collector
      decreases match root case Some(n) => n case None => LEAF, 1
      ensures Valid()
      ensures r == collector
      ensures var res := Visit(env, old(limit), root, attributesArray);
              && limit == res.limit
              && collector.items == old(collector.items) + res.records
              && calls == old(calls) + res.calls
              && emitted == old(emitted) + |res.records|
      ensures served >= old(served)
    {
      ghost var entryLimit := limit;
      limit := limit - 1;
      calls := calls + 1;
      if limit <= 0 || root.None? {
        RecordsWithinBudget(env, entryLimit, root, attributesArray);
        return collector;
      }
      var n := root.value;
      served := served + 1;
      ghost var children0 := VisitChildren(env, n, 0, limit, attributesArray);
      assert Visit(env, entryLimit, root, attributesArray)
          == SweepResult(children0.limit, RecordsAt(env, attributesArray, n) + children0.records, children0.calls + 1);
      PushRecord(collector, n, attributesArray);
      ParseChildren(collector, n, attributesArray);
      VisitElementCalls(env, entryLimit, n, attributesArray);
      return collector;
    }

    /**
     * Lines 27-35 of `parseNodes`: classify `n` and, when the classifier
     * recognises it, build its context tree and locator and push the record.
     */
    method PushRecord(collector: Collector, n: Node, attributesArray: seq<string>)
      modifies this`emitted, collector
      ensures collector.items == old(collector.items) + RecordsAt(env, attributesArray, n)
      ensures emitted == old(emitted) + |RecordsAt(env, attributesArray, n)|
    {
      var hash := env.classifier(n);
      if hash.Some? {
        var tree := env.builder(n, attributesArray, []);
        var h := hash.value;
        collector.items := collector.items + [Record(h, env.locator(tree, n, h.typeName, Some(attributesArray)), None)];
        emitted := emitted + 1;
      }
    }

    /**
     * The `for` loop of `parseNodes` (lines 37-42): calls `parseNodes` on every
     * child of `n` whose `nodeType` is `ELEMENT_NODE`, in `childNodes` order.
     */
    method ParseChildren(collector: Collector, n: Node, attributesArray: seq<string>)
      requires Valid()
      modifies this, collector
      decreases n, 0
      ensures Valid()
      ensures var res := VisitChildren(env, n, 0, old(limit), attributesArray);
              && limit == res.limit
              && collector.items == old(collector.items) + res.records
              && emitted - |collector.items| == old(emitted) - |old(collector.items)|
      ensures served >= old(served)
    {
      var children := n.childNodes;
      var i := 0;
      while i < |children|
        invariant 0 <= i <= |children|
        invariant Valid()
        invariant var whole := VisitChildren(env, n, 0, old(limit), attributesArray);
                  var rest := VisitChildren(env, n, i, limit, attributesArray);
                  && whole.limit == rest.limit
                  && old(collector.items) + whole.records == collector.items + rest.records
        invariant emitted - |collector.items| == old(emitted) - |old(collector.items)|
        invariant served >= old(served)
      {
        ghost var items0 := collector.items;
        ghost var first := if IsElement(children[i]) then VisitElement(env, limit, children[i], attributesArray)
                           else SweepResult(limit, [], 0);
        ghost var after := VisitChildren(env, n, i + 1, first.limit, attributesArray);
        assert VisitChildren(env, n, i, limit, attributesArray)
            == SweepResult(after.limit, first.records + after.records, first.calls + after.calls);
        if children[i].nodeType == ELEMENT_NODE {
          var _ := ParseNodes(collector, Some(children[i]), attributesArray);
        }
        assert collector.items == items0 + first.records;
        assert collector.items + after.records == items0 + (first.records + after.records);
        i := i + 1;
      }
      assert VisitChildren(env, n, i, limit, attributesArray) == SweepResult(limit, [], 0);
      assert collector.items + [] == collector.items;
    }

    /** `parseNode(time, node, attributes)`: classify and locate one node; the budget is not touched. */
    method ParseNode(time: string, node: Option<Node>, attributesArray: seq<string>) returns (r: Option<Record>)
      ensures r == Capture(env, time, node, attributesArray)
    {
      if node.Some? {
        var n := node.value;
        var classified := env.classifier(n);
        var hash := if classified.Some? then classified.value else DEFAULT_HASH;
        var tree := env.builder(n, attributesArray, []);
        return Some(Record(hash, env.locator(tree, n, hash.typeName, None), Some(time)));
      }
      return None;
    }
  }
}
