/** Writing a settings tree to the log (oskar_settings_log): a pre-order
    walk below the root that skips a node, and everything under it, when
    its dependencies are not satisfied or it is neither important, set nor
    required; then one warning per key the settings file held that the
    tree did not accept. The log is the returned sequence of entries. */
module SettingsLog {

  /** A settings node with what the walk asks of it. */
  datatype Node = Node(key: string, labelText: string, value: string, priority: int,
                       valueOrChildSet: bool, required: bool, children: seq<Node>)

  /** A settings tree: the root, the dependency test of
      SettingsTree::dependencies_satisfied, and the failed keys with their
      values. */
  datatype Tree = Tree(root: Node, dependenciesSatisfied: string -> bool, failedKeys: seq<(string, string)>)

  /** A log line: oskar_log_message with its depth and text,
      oskar_log_value with its depth, label and value, or
      oskar_log_warning. */
  datatype Entry =
    | Message(depth: int, text: string)
    | KeyValue(depth: int, labelText: string, value: string)
    | Warning(text: string)

  /** The longest value logged as a key/value pair. */
  const MaxValueLength := 35

  /** The node is written: its dependencies hold and it has a priority,
      a value or set child, or is required. */
  predicate Shown(deps: string -> bool, n: Node)
  {
    deps(n.key) && (n.priority > 0 || n.valueOrChildSet || n.required)
  }

  /** The number of bytes a character takes in UTF-8, the encoding of
      the C strings the settings hold. */
  function Utf8Width(c: char): (r: nat)
    ensures 1 <= r <= 4
    ensures r == 1 <==> (c as int) < 0x80
  {
    if (c as int) < 0x80 then 1
    else if (c as int) < 0x800 then 2
    else if (c as int) < 0x1_0000 then 3
    else 4
  }

  /** strlen of the UTF-8 encoding of s: its length in bytes. */
  function Utf8Length(s: string): (r: nat)
    ensures |s| <= r <= 4 * |s|
    ensures r == 0 <==> |s| == 0
    ensures (forall i :: 0 <= i < |s| ==> (s[i] as int) < 0x80) ==> r == |s|
  {
    if |s| == 0 then 0 else Utf8Length(s[..|s| - 1]) + Utf8Width(s[|s| - 1])
  }

  /** The line written for a shown node at depth; the length test counts
      the bytes of the value, as strlen does. */
  function NodeEntry(n: Node, depth: int): (e: Entry)
    ensures |n.value| == 0 ==> e == Message(depth, n.labelText)
    ensures Utf8Length(n.value) > MaxValueLength ==> e == Message(depth, n.labelText + ": " + n.value)
    ensures 0 < Utf8Length(n.value) <= MaxValueLength ==> e == KeyValue(depth, n.labelText, n.value)
  {
    var len := Utf8Length(n.value);
    if len == 0 then Message(depth, n.labelText)
    else if len > MaxValueLength then Message(depth, n.labelText + ": " + n.value)
    else KeyValue(depth, n.labelText, n.value)
  }

  /** oskar_settings_log_private for a node at depth. */
  function LogNode(deps: string -> bool, n: Node, depth: int): seq<Entry>
    decreases n, 1
  {
    if !Shown(deps, n) then [] else [NodeEntry(n, depth)] + LogChildren(deps, n.children, depth + 1)
  }

  /** The children in index order, each at depth. */
  function LogChildren(deps: string -> bool, children: seq<Node>, depth: int): seq<Entry>
    decreases children, 0
  {
    if |children| == 0 then []
    else LogChildren(deps, children[..|children| - 1], depth) + LogNode(deps, children[|children| - 1], depth)
  }

  function Warnings(failed: seq<(string, string)>): (r: seq<Entry>)
    ensures |r| == |failed|
    ensures forall i :: 0 <= i < |r| ==> r[i] == Warning("Ignoring '" + failed[i].0 + "'='" + failed[i].1 + "'")
  {
    seq(|failed|, i requires 0 <= i < |failed| => Warning("Ignoring '" + failed[i].0 + "'='" + failed[i].1 + "'"))
  }

  /** oskar_settings_log: the root's children at depth 0, the root itself
      not written, then the warnings. */
  function Log(t: Tree): seq<Entry>
  {
    LogChildren(t.dependenciesSatisfied, t.root.children, 0) + Warnings(t.failedKeys)
  }

  // ---------------------------------------------------------------------
  // Properties

  /** A node whose dependencies fail writes nothing, whatever lies under
      it; a shown node writes its own line first, then its children's. */
  lemma LogNodeShape(deps: string -> bool, n: Node, depth: int)
    ensures !deps(n.key) ==> LogNode(deps, n, depth) == []
    ensures |LogNode(deps, n, depth)| > 0 <==> Shown(deps, n)
    ensures Shown(deps, n) ==> LogNode(deps, n, depth)[0] == NodeEntry(n, depth)
  {
  }

  predicate AtDepthAtLeast(entries: seq<Entry>, depth: int)
  {
    forall i :: 0 <= i < |entries| ==> !entries[i].Warning? && EntryDepth(entries[i]) >= depth
  }

  function EntryDepth(e: Entry): int
  {
    match e
    case Message(d, _) => d
    case KeyValue(d, _, _) => d
    case Warning(_) => 0
  }

  /** The walk writes no warning, and every line under a node at depth is
      deeper than it: only the node's own line is at depth. */
  lemma {:induction false} LogNodeDepths(deps: string -> bool, n: Node, depth: int)
    ensures AtDepthAtLeast(LogNode(deps, n, depth), depth)
    ensures forall i :: 1 <= i < |LogNode(deps, n, depth)| ==> EntryDepth(LogNode(deps, n, depth)[i]) > depth
    decreases n, 1
  {
    if Shown(deps, n) {
      LogChildrenDepths(deps, n.children, depth + 1);
      var rest := LogChildren(deps, n.children, depth + 1);
      assert LogNode(deps, n, depth) == [NodeEntry(n, depth)] + rest;
    }
  }

  lemma {:induction false} LogChildrenDepths(deps: string -> bool, children: seq<Node>, depth: int)
    ensures AtDepthAtLeast(LogChildren(deps, children, depth), depth)
    decreases children, 0
  {
    if |children| > 0 {
      var init := children[..|children| - 1];
      LogChildrenDepths(deps, init, depth);
      LogNodeDepths(deps, children[|children| - 1], depth);
      var a := LogChildren(deps, init, depth);
      var b := LogNode(deps, children[|children| - 1], depth);
      var ab: seq<Entry> := a + b;
      assert LogChildren(deps, children, depth) == ab;
      forall i | 0 <= i < |ab|
        ensures !ab[i].Warning? && EntryDepth(ab[i]) >= depth
      {
        if i < |a| {
          assert ab[i] == a[i];
        } else {
          assert ab[i] == b[i - |a|];
        }
      }
    }
  }

  /** The children are written in index order: the lines of the first k
      children come before those of the following ones. */
  lemma {:induction false} LogChildrenAppend(deps: string -> bool, a: seq<Node>, b: seq<Node>, depth: int)
    ensures LogChildren(deps, a + b, depth) == LogChildren(deps, a, depth) + LogChildren(deps, b, depth)
    decreases |b|
  {
    if |b| == 0 {
      assert a + b == a;
    } else {
      var b' := b[..|b| - 1];
      var last := b[|b| - 1];
      assert (a + b)[..|a + b| - 1] == a + b';
      assert (a + b)[|a + b| - 1] == last;
      var front, middle, back := LogChildren(deps, a, depth), LogChildren(deps, b', depth), LogNode(deps, last, depth);
      calc {
        LogChildren(deps, a + b, depth);
        LogChildren(deps, a + b', depth) + back;
        { LogChildrenAppend(deps, a, b', depth); }
        front + middle + back;
        { assert front + middle + back == front + (middle + back); }
        front + (middle + back);
        front + LogChildren(deps, b, depth);
      }
    }
  }

  /** The log ends with exactly one warning per failed key, in order, and
      holds no other warning. */
  lemma LogEndsWithWarnings(t: Tree)
    ensures var tree := LogChildren(t.dependenciesSatisfied, t.root.children, 0);
      && Log(t) == tree + Warnings(t.failedKeys)
      && (forall i :: 0 <= i < |tree| ==> !tree[i].Warning? && EntryDepth(tree[i]) >= 0)
      && |Log(t)| == |tree| + |t.failedKeys|
  {
    LogChildrenDepths(t.dependenciesSatisfied, t.root.children, 0);
  }
}
