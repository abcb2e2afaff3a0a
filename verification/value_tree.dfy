/**
 The part of juce::var and juce::ValueTree that the clip descriptor relies on,
 as immutable values. A node is a type tag, a property map and an ordered list
 of children; listeners are not part of a node, they are modelled by the
 descriptor's callbacks.
 */
module ValueTree {
  import opened Wrappers

  /** A juce::var holding one of the kinds of value this core stores. */
  datatype Value = Void | Text(s: string) | Real(x: real) | Int(n: int)

  /** `n` is what C++ yields when it converts `x` to an integer type:
      the integer part, truncated toward zero. */
  predicate Truncates(n: int, x: real)
  {
    && (0.0 <= x ==> n as real <= x < n as real + 1.0)
    && (x < 0.0 ==> n as real - 1.0 < x <= n as real)
  }

  /** Conversion of a double to an integer type (truncation toward zero). */
  function Truncate(x: real): int
  {
    if 0.0 <= x then x.Floor else -((-x).Floor)
  }

  /** Truncate yields the integer part of its argument. */
  lemma TruncateTruncates(x: real)
    ensures Truncates(Truncate(x), x)
  {
  }

  /** var to double: numbers convert, a void var reads as 0. */
  function AsReal(v: Value): real
  {
    match v
    case Real(x) => x
    case Int(n) => n as real
    case Void => 0.0
    case Text(_) => 0.0
  }

  /** var to int: a double is truncated, a void var reads as 0. */
  function AsInt(v: Value): int
  {
    match v
    case Real(x) => Truncate(x)
    case Int(n) => n
    case Void => 0
    case Text(_) => 0
  }

  /** var to juce::String: only text is interpreted. */
  function AsText(v: Value): string
  {
    match v
    case Text(s) => s
    case _ => ""
  }

  datatype Node = Node(kind: string, props: map<string, Value>, children: seq<Node>)

  /** ValueTree::getProperty (name, defaultReturnValue). */
  function GetProperty(n: Node, key: string, default: Value): Value
  {
    if key in n.props then n.props[key] else default
  }

  /** ValueTree::hasProperty. */
  predicate HasProperty(n: Node, key: string)
  {
    key in n.props
  }

  /** `after` differs from `before` at most in the property `key`. */
  ghost predicate SameExcept(before: Node, after: Node, key: string)
  {
    && before.kind == after.kind
    && before.children == after.children
    && forall k :: k != key ==>
         (k in before.props <==> k in after.props) && GetProperty(before, k, Void) == GetProperty(after, k, Void)
  }

  /** ValueTree::setProperty: the one property holds the new value afterwards. */
  function SetProperty(n: Node, key: string, v: Value): (r: Node)
    ensures HasProperty(r, key) && GetProperty(r, key, Void) == v
    ensures SameExcept(n, r, key)
  {
    n.(props := n.props[key := v])
  }

  /** Whether setProperty reports a change to listeners: JUCE notifies only
      when the stored value differs from the new one. */
  predicate Changes(n: Node, key: string, v: Value)
  {
    !(key in n.props && n.props[key] == v)
  }

  /** Where ValueTree::addChild puts a child in a list of `size`: at `index`
      when 0 <= index <= size, otherwise at the end. */
  function InsertPosition(size: nat, index: int): (p: nat)
    ensures p <= size
    ensures 0 <= index <= size ==> p == index
    ensures !(0 <= index <= size) ==> p == size
  {
    if 0 <= index <= size then index else size
  }

  /** ValueTree::addChild for a node that has no parent yet. */
  function AddChild(n: Node, c: Node, index: int): (r: Node)
    ensures r.kind == n.kind && r.props == n.props
    ensures |r.children| == |n.children| + 1
    ensures var p := InsertPosition(|n.children|, index);
      && r.children[p] == c
      && r.children[..p] == n.children[..p]
      && r.children[p + 1..] == n.children[p..]
  {
    var p := InsertPosition(|n.children|, index);
    n.(children := n.children[..p] + [c] + n.children[p..])
  }

  /** ValueTree::removeChild (index): an index outside the list changes nothing. */
  function RemoveChild(n: Node, index: int): (r: Node)
    ensures r.kind == n.kind && r.props == n.props
    ensures 0 <= index < |n.children| ==>
      && |r.children| == |n.children| - 1
      && r.children[..index] == n.children[..index]
      && r.children[index..] == n.children[index + 1..]
    ensures !(0 <= index < |n.children|) ==> r == n
  {
    if 0 <= index < |n.children| then n.(children := n.children[..index] + n.children[index + 1..]) else n
  }

  /** The same node with child `i` replaced; used where JUCE changes a child
      that is shared by reference. */
  function ReplaceChild(n: Node, i: nat, c: Node): (r: Node)
    requires i < |n.children|
    ensures r.kind == n.kind && r.props == n.props && |r.children| == |n.children|
    ensures r.children[i] == c
    ensures forall j :: 0 <= j < |n.children| && j != i ==> r.children[j] == n.children[j]
    ensures c.kind == n.children[i].kind ==> forall t :: FirstOfType(r, t) == FirstOfType(n, t)
  {
    var r := n.(children := n.children[i := c]);
    if c.kind == n.children[i].kind then KindsDecideFirstOfType(n, r); r else r
  }

  /** The position of the first child of type `kind` at or after `from`. */
  function FirstOfTypeFrom(cs: seq<Node>, kind: string, from: nat): (r: Option<nat>)
    requires from <= |cs|
    ensures r.Some? ==>
      && from <= r.value < |cs| && cs[r.value].kind == kind
      && forall j :: from <= j < r.value ==> cs[j].kind != kind
    ensures r.None? ==> forall j :: from <= j < |cs| ==> cs[j].kind != kind
    decreases |cs| - from
  {
    if from == |cs| then None
    else if cs[from].kind == kind then Some(from)
    else FirstOfTypeFrom(cs, kind, from + 1)
  }

  /** ValueTree::getChildWithName: the position of the first child of the given type. */
  function FirstOfType(n: Node, kind: string): (r: Option<nat>)
    ensures r.Some? ==>
      && r.value < |n.children| && n.children[r.value].kind == kind
      && forall j :: 0 <= j < r.value ==> n.children[j].kind != kind
    ensures r.None? ==> forall j :: 0 <= j < |n.children| ==> n.children[j].kind != kind
  {
    FirstOfTypeFrom(n.children, kind, 0)
  }

  /** Two nodes whose children have the same types in the same order have
      their first child of every type at the same position. */
  lemma KindsDecideFirstOfType(n: Node, m: Node)
    requires |n.children| == |m.children|
    requires forall j :: 0 <= j < |n.children| ==> n.children[j].kind == m.children[j].kind
    ensures forall t :: FirstOfType(m, t) == FirstOfType(n, t)
  {
    forall t
      ensures FirstOfType(m, t) == FirstOfType(n, t)
    {
    }
  }

  /** ValueTree::getOrCreateChildWithName: the first child of that type, or a
      new empty one appended when there is none. Returns the tree and the
      child's position. */
  function GetOrCreateChild(n: Node, kind: string): (r: (Node, nat))
    ensures r.1 < |r.0.children| && r.0.children[r.1].kind == kind
    ensures FirstOfType(r.0, kind) == Some(r.1)
    ensures r.0.kind == n.kind && r.0.props == n.props
    ensures FirstOfType(n, kind).Some? ==> r.0 == n
    ensures FirstOfType(n, kind).None? ==> r.0.children == n.children + [Node(kind, map[], [])]
  {
    match FirstOfType(n, kind)
    case Some(k) => (n, k)
    case None =>
      var m := n.(children := n.children + [Node(kind, map[], [])]);
      (m, |n.children|)
  }
}
