/**
  Path resolution over the scope chain. A path is a list of segments; the
  first segment is looked up in the starting node and, failing that, in its
  ancestors; every later segment must be found in the style the previous one
  matched (directly, or through that group's own parent style). Each match
  pushes a new node whose parent is the node the key was matched at.

  Every function here takes a `fuel` argument. Only a self reference spends
  fuel: fetching its target re-enters `Node.get`, which the original code
  does without any cycle check. With fuel exhausted the result is
  `OutOfFuel`; everything else matches the original step for step.
*/
module Resolution {
  import opened Dotted
  import opened Styles

  /** The fuel left for the rest of a chase after fetching the target of
      `r`: one unit less after a self reference, unchanged otherwise. */
  function After(r: Ref, fuel: nat): nat {
    if r.SelfReference? && fuel > 0 then fuel - 1 else fuel
  }

  /** `Reference.get(node)`: the fixed target of a StyleReference or a
      NamedReference, whatever the node; for a SelfReference, its own path
      resolved from `n` (Kotlin `node.get(*value)`). */
  function RefGet(r: Ref, n: Node, fuel: nat): (res: Outcome<Style>)
    ensures !r.SelfReference? ==> res == Ok(r.target)
    ensures r.SelfReference? && fuel == 0 ==> res == OutOfFuel
    decreases fuel, 0, 0, r
  {
    match r
    case StyleReference(t) => Ok(t)
    case NamedReference(_, t) => Ok(t)
    case SelfReference(args) =>
      if fuel == 0 then OutOfFuel else NodeGet(n, args, fuel - 1)
  }

  /** The `StyleResolver` visitors (the one inside `Node` and the one that
      `StyleGroup` uses for its parent style behave alike): the child that
      style `s` holds under `key` when looked at from node `n`. A value holds
      nothing, a group answers with its own `get`, and a reference fetches
      its target against the same node and asks the target. */
  function ChildOf(s: Style, n: Node, key: string, fuel: nat): Outcome<Option<Style>>
    decreases fuel, 0, 0, s
  {
    match s
    case Value(_) => Ok(None)
    case Group(g) => GroupGet(g, n, key, fuel)
    case Reference(r) =>
      var t :- RefGet(r, n, fuel);
      ChildOf(t, n, key, After(r, fuel))
  }

  /** `StyleGroup.get(node, key)` for the three representations: the local
      entry when there is one, otherwise the parent style's answer. */
  function GroupGet(g: GroupShape, n: Node, key: string, fuel: nat): Outcome<Option<Style>>
    decreases fuel, 0, 0, g
  {
    match g
    case Empty(parent) => ParentLookup(parent, n, key, fuel)
    case Single(k, v, parent) =>
      if key == k then Ok(Some(v)) else ParentLookup(parent, n, key, fuel)
    case Multi(styles, parent) =>
      if key in styles then Ok(Some(styles[key])) else ParentLookup(parent, n, key, fuel)
  }

  /** `parent?.accept(node to key, StyleResolver)`: nothing without a
      parent, else the parent style's child under `key`. */
  function ParentLookup(parent: Option<Style>, n: Node, key: string, fuel: nat): Outcome<Option<Style>>
    decreases fuel, 0, 0, parent
  {
    match parent
    case None => Ok(None)
    case Some(p) => ChildOf(p, n, key, fuel)
  }

  /** `Group.keys()`: the keys a group holds itself; a parent's keys are
      never included. */
  function Keys(g: GroupShape): set<string> {
    match g
    case Empty(_) => {}
    case Single(k, _, _) => {k}
    case Multi(styles, _) => styles.Keys
  }

  /** The `StyleAsNode` visitor: the node pushed for a match found at `n`.
      A value or a group becomes the current style of a new node whose
      parent is `n`; a reference is replaced by its target, fetched against
      `n`, first. */
  function AsNode(s: Style, n: Node, fuel: nat): Outcome<Node>
    decreases fuel, 0, 0, s
  {
    match s
    case Value(_) => Ok(Node(s, Some(n)))
    case Group(_) => Ok(Node(s, Some(n)))
    case Reference(r) =>
      var t :- RefGet(r, n, fuel);
      AsNode(t, n, After(r, fuel))
  }

  /** `Node.resolve(keys, checkOnParent)`: the empty path designates the
      node itself. */
  function Resolve(n: Node, keys: seq<string>, check: bool, fuel: nat): Outcome<Option<Node>>
    decreases fuel, |keys|, 1, 0
  {
    if |keys| == 0 then Ok(Some(n))
    else ResolveDown(n, keys[1..], keys[0], check, fuel)
  }

  /** `Node.resolveDown(keys, key, checkOnParent)`: look `key` up in the
      current style; on a match, descend into the matched style with no
      further fallback; on a miss, retry at the parent node when allowed. */
  function ResolveDown(n: Node, rest: seq<string>, key: string, check: bool, fuel: nat): Outcome<Option<Node>>
    decreases fuel, |rest| + 1, 0, n
  {
    var found :- ChildOf(n.current, n, key, fuel);
    match found
    case Some(s) =>
      var child :- AsNode(s, n, fuel);
      Resolve(child, rest, false, fuel)
    case None =>
      if check && n.parent.Some? then ResolveDown(n.parent.value, rest, key, true, fuel)
      else Ok(None)
  }

  /** `Node.get(*args)`: the current style of the node the arguments'
      path resolves to, or `ReferenceNotFound` for these arguments at `n`. */
  function NodeGet(n: Node, args: seq<PathArg>, fuel: nat): Outcome<Style>
    decreases fuel, |PathOf(args)| + 1, 0, 0
  {
    var m :- Resolve(n, PathOf(args), true, fuel);
    match m
    case None => ReferenceNotFound(args, n)
    case Some(found) => Ok(found.current)
  }

  /** `Node.getOrNull(*args)`: as `NodeGet`, with `None` for a path that
      does not resolve. Failures of inner self references still escape. */
  function NodeGetOrNull(n: Node, args: seq<PathArg>, fuel: nat): Outcome<Option<Style>> {
    var m :- Resolve(n, PathOf(args), true, fuel);
    match m
    case None => Ok(None)
    case Some(found) => Ok(Some(found.current))
  }
}
