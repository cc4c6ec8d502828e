/**
  Laws of path resolution, each stated against an independent formulation:
  `Chase` (follow references until a value or a group), `Ancestors` and
  `FirstMatch` (the first node up the scope chain that holds a key), and
  `Up` (the k-th ancestor of a node).
*/
module ResolutionLaws {
  import opened Dotted
  import opened Styles
  import opened Resolution

  // ---------------------------------------------------------------------
  // Reference chasing
  // ---------------------------------------------------------------------

  /** Follow references from `s`, each fetched against `n`, until a value or
      a group is reached; also report the fuel left for what follows. */
  function Chase(s: Style, n: Node, fuel: nat): (res: Outcome<(Style, nat)>)
    ensures res.Ok? ==> !res.value.0.Reference? && res.value.1 <= fuel
    ensures !s.Reference? ==> res == Ok((s, fuel))
    decreases fuel, s
  {
    match s
    case Reference(r) =>
      var t :- RefGet(r, n, fuel);
      Chase(t, n, After(r, fuel))
    case _ => Ok((s, fuel))
  }

  /** A reference is transparent to key lookup: asking a style for a child
      is asking the style its references lead to, with the fuel left after
      chasing them. */
  lemma {:induction false} LookupThroughReferences(s: Style, n: Node, key: string, fuel: nat)
    ensures var c := Chase(s, n, fuel);
      ChildOf(s, n, key, fuel) == if c.Ok? then ChildOf(c.value.0, n, key, c.value.1) else c.PropagateFailure()
    decreases fuel, s
  {
    if s.Reference? {
      var r := s.ref;
      var t := RefGet(r, n, fuel);
      if t.Ok? {
        LookupThroughReferences(t.value, n, key, After(r, fuel));
      }
    }
  }

  /** The node pushed for a match holds the style the match's references
      lead to (never a reference) and has the matching node as parent. */
  lemma {:induction false} NodeOfMatch(s: Style, n: Node, fuel: nat)
    ensures var c := Chase(s, n, fuel);
      AsNode(s, n, fuel) == if c.Ok? then Ok(Node(c.value.0, Some(n))) else c.PropagateFailure()
    ensures AsNode(s, n, fuel).Ok? ==>
      && !AsNode(s, n, fuel).value.current.Reference?
      && AsNode(s, n, fuel).value.parent == Some(n)
    decreases fuel, s
  {
    if s.Reference? {
      var r := s.ref;
      var t := RefGet(r, n, fuel);
      if t.Ok? {
        NodeOfMatch(t.value, n, After(r, fuel));
      }
    }
  }

  /** A one-segment path matched at `n` by a value or a group, with or
      without fallback, resolves to the node that match pushes. */
  lemma ResolveOne(n: Node, k: string, check: bool, fuel: nat, c: Style)
    requires ChildOf(n.current, n, k, fuel) == Ok(Some(c)) && !c.Reference?
    ensures Resolve(n, [k], check, fuel) == Ok(Some(Node(c, Some(n))))
  {
    assert [k][1..] == [];
    assert AsNode(c, n, fuel) == Ok(Node(c, Some(n)));
    assert Resolve(Node(c, Some(n)), [], false, fuel) == Ok(Some(Node(c, Some(n))));
    assert ResolveDown(n, [], k, check, fuel) == Ok(Some(Node(c, Some(n))));
  }

  // ---------------------------------------------------------------------
  // Groups
  // ---------------------------------------------------------------------

  /** A key the group holds itself is answered by its own entry, the same
      way from every node and with any fuel, and never by the parent; any
      other key is exactly the parent style's answer. */
  lemma GroupKeysAnswerLocally(g: GroupShape, n: Node, key: string, fuel: nat, n': Node, fuel': nat)
    ensures key in Keys(g) ==>
      && GroupGet(g, n, key, fuel) == Ok(Some(if g.Single? then g.value else g.styles[key]))
      && GroupGet(g, n, key, fuel) == GroupGet(g, n', key, fuel')
    ensures key !in Keys(g) ==> GroupGet(g, n, key, fuel) == ParentLookup(g.parent, n, key, fuel)
  {
  }

  // ---------------------------------------------------------------------
  // The scope chain
  // ---------------------------------------------------------------------

  /** A node, its parent, its grandparent, ... up to the root. */
  function Ancestors(n: Node): (chain: seq<Node>)
    ensures |chain| > 0 && chain[0] == n
    decreases n
  {
    if n.parent.None? then [n] else [n] + Ancestors(n.parent.value)
  }

  /** The k-th ancestor of a node, if the chain is that long. */
  function Up(m: Node, k: nat): Option<Node>
    decreases k
  {
    if k == 0 then Some(m)
    else if m.parent.None? then None
    else Up(m.parent.value, k - 1)
  }

  /** The first node of `chain` whose current style holds `key`, with the
      style it holds; failures of reference chasing stop the search. */
  function FirstMatch(chain: seq<Node>, key: string, fuel: nat): Outcome<Option<(Node, Style)>> {
    if |chain| == 0 then Ok(None)
    else
      var found :- ChildOf(chain[0].current, chain[0], key, fuel);
      match found
      case Some(s) => Ok(Some((chain[0], s)))
      case None => FirstMatch(chain[1..], key, fuel)
  }

  /** FirstMatch finds the earliest node holding the key, and finds nothing
      exactly when no node holds it (and no lookup failed). */
  lemma {:induction false} FirstMatchIsEarliest(chain: seq<Node>, key: string, fuel: nat)
    ensures var r := FirstMatch(chain, key, fuel);
      r.Ok? && r.value.Some? ==>
        exists i | 0 <= i < |chain| ::
          && chain[i] == r.value.value.0
          && ChildOf(chain[i].current, chain[i], key, fuel) == Ok(Some(r.value.value.1))
          && forall j | 0 <= j < i :: ChildOf(chain[j].current, chain[j], key, fuel) == Ok(None)
    ensures FirstMatch(chain, key, fuel) == Ok(None) <==>
      forall j | 0 <= j < |chain| :: ChildOf(chain[j].current, chain[j], key, fuel) == Ok(None)
  {
    if |chain| > 0 {
      FirstMatchIsEarliest(chain[1..], key, fuel);
      var r := FirstMatch(chain, key, fuel);
      if ChildOf(chain[0].current, chain[0], key, fuel) == Ok(None) {
        if r.Ok? && r.value.Some? {
          var i :| 0 <= i < |chain[1..]|
            && chain[1..][i] == r.value.value.0
            && ChildOf(chain[1..][i].current, chain[1..][i], key, fuel) == Ok(Some(r.value.value.1))
            && forall j | 0 <= j < i :: ChildOf(chain[1..][j].current, chain[1..][j], key, fuel) == Ok(None);
          assert chain[i + 1] == r.value.value.0;
          assert forall j | 0 <= j < i + 1 :: ChildOf(chain[j].current, chain[j], key, fuel) == Ok(None) by {
            forall j | 0 <= j < i + 1
              ensures ChildOf(chain[j].current, chain[j], key, fuel) == Ok(None)
            {
              if j > 0 {
                assert chain[j] == chain[1..][j - 1];
              }
            }
          }
        }
        if FirstMatch(chain[1..], key, fuel) != Ok(None) {
          var j :| 0 <= j < |chain[1..]| && ChildOf(chain[1..][j].current, chain[1..][j], key, fuel) != Ok(None);
          assert chain[j + 1] == chain[1..][j];
        }
      }
    }
  }

  /** What a first-segment match leads to: nothing, a failure, or the
      remaining path resolved, without fallback, below the node pushed for
      the match. */
  function Descend(fm: Outcome<Option<(Node, Style)>>, rest: seq<string>, fuel: nat): Outcome<Option<Node>> {
    match fm
    case Ok(None) => Ok(None)
    case Ok(Some((a, s))) =>
      var child :- AsNode(s, a, fuel);
      Resolve(child, rest, false, fuel)
    case ReferenceNotFound(args, at) => ReferenceNotFound(args, at)
    case OutOfFuel => OutOfFuel
  }

  /** The first segment falls back along the scope chain: resolving with
      `checkOnParent` is taking the first ancestor that holds the key (a
      node that holds it shadows all of its ancestors) and descending from
      there; an exhausted chain gives `null`. */
  lemma {:induction false} FirstSegmentFallsBack(n: Node, rest: seq<string>, key: string, fuel: nat)
    ensures ResolveDown(n, rest, key, true, fuel) == Descend(FirstMatch(Ancestors(n), key, fuel), rest, fuel)
    decreases n
  {
    var chain := Ancestors(n);
    if n.parent.Some? {
      FirstSegmentFallsBack(n.parent.value, rest, key, fuel);
      assert chain[1..] == Ancestors(n.parent.value);
    } else {
      assert chain[1..] == [];
    }
  }

  /** Later segments never fall back: a key the current style does not hold
      ends the resolution with `null`, whatever the ancestors hold. */
  lemma NoFallbackAfterMatch(n: Node, rest: seq<string>, key: string, fuel: nat)
    requires ChildOf(n.current, n, key, fuel) == Ok(None)
    ensures ResolveDown(n, rest, key, false, fuel) == Ok(None)
    ensures Resolve(n, [key] + rest, false, fuel) == Ok(None)
  {
    assert ([key] + rest)[1..] == rest;
  }

  /** One more step up from a node whose parent is known. */
  lemma {:induction false} UpStep(m: Node, k: nat, c: Node, n: Node)
    requires Up(m, k) == Some(c) && c.parent == Some(n)
    ensures Up(m, k + 1) == Some(n)
    decreases k
  {
    if k > 0 {
      UpStep(m.parent.value, k - 1, c, n);
    }
  }

  /** The shape of a resolved node: for a path of k segments it sits k
      levels below the node the first segment matched at (which is the
      starting node when there is no fallback, an ancestor of it
      otherwise), and it never holds a reference. */
  lemma {:induction false} ResolvedNodeShape(n: Node, keys: seq<string>, fuel: nat)
    ensures var r := Resolve(n, keys, false, fuel);
      r.Ok? && r.value.Some? ==>
        && Up(r.value.value, |keys|) == Some(n)
        && (|keys| > 0 ==> !r.value.value.current.Reference?)
    decreases |keys|, 1, n
  {
    if |keys| > 0 {
      ResolveDownShape(n, keys[1..], keys[0], false, fuel);
    }
  }

  lemma {:induction false} ResolveDownShape(n: Node, rest: seq<string>, key: string, check: bool, fuel: nat)
    ensures var r := ResolveDown(n, rest, key, check, fuel);
      r.Ok? && r.value.Some? ==>
        && Up(r.value.value, |rest| + 1).Some?
        && Up(r.value.value, |rest| + 1).value in Ancestors(n)
        && (!check ==> Up(r.value.value, |rest| + 1) == Some(n))
        && !r.value.value.current.Reference?
    decreases |rest| + 1, 0, n
  {
    var r := ResolveDown(n, rest, key, check, fuel);
    var found := ChildOf(n.current, n, key, fuel);
    if found.Ok? && found.value.Some? {
      var s := found.value.value;
      NodeOfMatch(s, n, fuel);
      var child := AsNode(s, n, fuel);
      if child.Ok? {
        ResolvedNodeShape(child.value, rest, fuel);
        if r.Ok? && r.value.Some? {
          UpStep(r.value.value, |rest|, child.value, n);
        }
      }
    } else if found.Ok? && check && n.parent.Some? {
      ResolveDownShape(n.parent.value, rest, key, true, fuel);
    }
  }

  /** The resolved node when the first segment may fall back: its
      |keys|-th ancestor is a node of the starting node's scope chain. */
  lemma ResolvedFromAncestor(n: Node, keys: seq<string>, fuel: nat)
    requires |keys| > 0
    ensures var r := Resolve(n, keys, true, fuel);
      r.Ok? && r.value.Some? ==>
        && Up(r.value.value, |keys|).Some?
        && Up(r.value.value, |keys|).value in Ancestors(n)
        && !r.value.value.current.Reference?
  {
    ResolveDownShape(n, keys[1..], keys[0], true, fuel);
  }

  // ---------------------------------------------------------------------
  // Composing paths
  // ---------------------------------------------------------------------

  /** Continue a resolution with more segments, without fallback. */
  function AndThen(r: Outcome<Option<Node>>, more: seq<string>, fuel: nat): Outcome<Option<Node>> {
    match r
    case Ok(None) => Ok(None)
    case Ok(Some(m)) => Resolve(m, more, false, fuel)
    case ReferenceNotFound(args, at) => ReferenceNotFound(args, at)
    case OutOfFuel => OutOfFuel
  }

  /** Resolving a + b is resolving a, then b from the node reached. Only
      the very first segment may fall back, so the law needs a non-empty
      `a` when fallback is on. */
  lemma {:induction false} ResolveConcat(n: Node, a: seq<string>, b: seq<string>, check: bool, fuel: nat)
    requires |a| > 0 || !check
    ensures Resolve(n, a + b, check, fuel) == AndThen(Resolve(n, a, check, fuel), b, fuel)
    decreases |a|, 1, n
  {
    if |a| == 0 {
      assert a + b == b;
    } else {
      assert (a + b)[1..] == a[1..] + b;
      ResolveDownConcat(n, a[1..], b, a[0], check, fuel);
    }
  }

  lemma {:induction false} ResolveDownConcat(n: Node, rest: seq<string>, b: seq<string>, key: string, check: bool, fuel: nat)
    ensures ResolveDown(n, rest + b, key, check, fuel) == AndThen(ResolveDown(n, rest, key, check, fuel), b, fuel)
    decreases |rest| + 1, 0, n
  {
    var found := ChildOf(n.current, n, key, fuel);
    if found.Ok? && found.value.Some? {
      var child := AsNode(found.value.value, n, fuel);
      if child.Ok? {
        ResolveConcat(child.value, rest, b, false, fuel);
      }
    } else if found.Ok? && check && n.parent.Some? {
      ResolveDownConcat(n.parent.value, rest, b, key, true, fuel);
    }
  }

  // ---------------------------------------------------------------------
  // Self references
  // ---------------------------------------------------------------------

  /** A self reference fetched at `n` resolves its own path from `n`, with
      fallback: the node found gives its style, a path that does not
      resolve is ReferenceNotFound for the reference's arguments at `n`,
      and any other failure of the resolution is passed on. */
  lemma SelfReferenceGet(args: seq<PathArg>, n: Node, fuel: nat)
    requires fuel > 0
    ensures var r := Resolve(n, PathOf(args), true, fuel - 1);
      && (r == Ok(None) ==> RefGet(SelfReference(args), n, fuel) == ReferenceNotFound(args, n))
      && (r.Ok? && r.value.Some? ==> RefGet(SelfReference(args), n, fuel) == Ok(r.value.value.current))
      && (r.IsFailure() ==> RefGet(SelfReference(args), n, fuel) == r.PropagateFailure())
  {
  }

  // ---------------------------------------------------------------------
  // Fuel only cuts a lookup short
  // ---------------------------------------------------------------------

  /* Each lemma below says: a lookup that does not run out of fuel `f`
     gives the same outcome with any larger fuel `f'`. So the answer of a
     lookup never depends on the fuel granted, only whether it is reached. */

  lemma RefGetMoreFuel(r: Ref, n: Node, f: nat, f': nat)
    requires f <= f' && !RefGet(r, n, f).OutOfFuel?
    ensures RefGet(r, n, f') == RefGet(r, n, f)
    decreases f, 0, 0, r
  {
    if r.SelfReference? {
      NodeGetMoreFuel(n, r.args, f - 1, f' - 1);
    }
  }

  lemma ChildOfMoreFuel(s: Style, n: Node, key: string, f: nat, f': nat)
    requires f <= f' && !ChildOf(s, n, key, f).OutOfFuel?
    ensures ChildOf(s, n, key, f') == ChildOf(s, n, key, f)
    decreases f, 0, 0, s
  {
    match s
    case Value(_) =>
    case Group(g) => GroupGetMoreFuel(g, n, key, f, f');
    case Reference(r) =>
      RefGetMoreFuel(r, n, f, f');
      if RefGet(r, n, f).Ok? {
        ChildOfMoreFuel(RefGet(r, n, f).value, n, key, After(r, f), After(r, f'));
      }
  }

  lemma GroupGetMoreFuel(g: GroupShape, n: Node, key: string, f: nat, f': nat)
    requires f <= f' && !GroupGet(g, n, key, f).OutOfFuel?
    ensures GroupGet(g, n, key, f') == GroupGet(g, n, key, f)
    decreases f, 0, 0, g
  {
    if GroupGet(g, n, key, f) == ParentLookup(g.parent, n, key, f) {
      ParentLookupMoreFuel(g.parent, n, key, f, f');
    }
  }

  lemma ParentLookupMoreFuel(parent: Option<Style>, n: Node, key: string, f: nat, f': nat)
    requires f <= f' && !ParentLookup(parent, n, key, f).OutOfFuel?
    ensures ParentLookup(parent, n, key, f') == ParentLookup(parent, n, key, f)
    decreases f, 0, 0, parent
  {
    if parent.Some? {
      ChildOfMoreFuel(parent.value, n, key, f, f');
    }
  }

  lemma AsNodeMoreFuel(s: Style, n: Node, f: nat, f': nat)
    requires f <= f' && !AsNode(s, n, f).OutOfFuel?
    ensures AsNode(s, n, f') == AsNode(s, n, f)
    decreases f, 0, 0, s
  {
    if s.Reference? {
      RefGetMoreFuel(s.ref, n, f, f');
      if RefGet(s.ref, n, f).Ok? {
        AsNodeMoreFuel(RefGet(s.ref, n, f).value, n, After(s.ref, f), After(s.ref, f'));
      }
    }
  }

  lemma ResolveMoreFuel(n: Node, keys: seq<string>, check: bool, f: nat, f': nat)
    requires f <= f' && !Resolve(n, keys, check, f).OutOfFuel?
    ensures Resolve(n, keys, check, f') == Resolve(n, keys, check, f)
    decreases f, |keys|, 1, 0
  {
    if |keys| > 0 {
      ResolveDownMoreFuel(n, keys[1..], keys[0], check, f, f');
    }
  }

  lemma ResolveDownMoreFuel(n: Node, rest: seq<string>, key: string, check: bool, f: nat, f': nat)
    requires f <= f' && !ResolveDown(n, rest, key, check, f).OutOfFuel?
    ensures ResolveDown(n, rest, key, check, f') == ResolveDown(n, rest, key, check, f)
    decreases f, |rest| + 1, 0, n
  {
    var found := ChildOf(n.current, n, key, f);
    ChildOfMoreFuel(n.current, n, key, f, f');
    if found.Ok? {
      if found.value.Some? {
        var s := found.value.value;
        AsNodeMoreFuel(s, n, f, f');
        if AsNode(s, n, f).Ok? {
          ResolveMoreFuel(AsNode(s, n, f).value, rest, false, f, f');
        }
      } else if check && n.parent.Some? {
        ResolveDownMoreFuel(n.parent.value, rest, key, true, f, f');
      }
    }
  }

  lemma NodeGetMoreFuel(n: Node, args: seq<PathArg>, f: nat, f': nat)
    requires f <= f' && !NodeGet(n, args, f).OutOfFuel?
    ensures NodeGet(n, args, f') == NodeGet(n, args, f)
    decreases f, |PathOf(args)| + 1, 0, 0
  {
    ResolveMoreFuel(n, PathOf(args), true, f, f');
  }

  // ---------------------------------------------------------------------
  // Where ReferenceNotFound comes from
  // ---------------------------------------------------------------------

  /* Only `Node.get` creates ReferenceNotFound(a, m), when the path of `a`
     does not resolve from `m`. Each lemma below says: a lookup that fails
     with ReferenceNotFound(a, m) is one in which that resolution, given the
     same fuel, finds nothing. */

  lemma RefGetNotFound(r: Ref, n: Node, f: nat, a: seq<PathArg>, m: Node)
    ensures RefGet(r, n, f) == ReferenceNotFound(a, m) ==> Resolve(m, PathOf(a), true, f) == Ok(None)
    decreases f, 0, 0, r
  {
    if r.SelfReference? && f > 0 && RefGet(r, n, f) == ReferenceNotFound(a, m) {
      NodeGetNotFound(n, r.args, f - 1, a, m);
      ResolveMoreFuel(m, PathOf(a), true, f - 1, f);
    }
  }

  lemma ChildOfNotFound(s: Style, n: Node, key: string, f: nat, a: seq<PathArg>, m: Node)
    ensures ChildOf(s, n, key, f) == ReferenceNotFound(a, m) ==> Resolve(m, PathOf(a), true, f) == Ok(None)
    decreases f, 0, 0, s
  {
    match s
    case Value(_) =>
    case Group(g) => GroupGetNotFound(g, n, key, f, a, m);
    case Reference(r) =>
      RefGetNotFound(r, n, f, a, m);
      if RefGet(r, n, f).Ok? && ChildOf(s, n, key, f) == ReferenceNotFound(a, m) {
        ChildOfNotFound(RefGet(r, n, f).value, n, key, After(r, f), a, m);
        ResolveMoreFuel(m, PathOf(a), true, After(r, f), f);
      }
  }

  lemma GroupGetNotFound(g: GroupShape, n: Node, key: string, f: nat, a: seq<PathArg>, m: Node)
    ensures GroupGet(g, n, key, f) == ReferenceNotFound(a, m) ==> Resolve(m, PathOf(a), true, f) == Ok(None)
    decreases f, 0, 0, g
  {
    ParentLookupNotFound(g.parent, n, key, f, a, m);
  }

  lemma ParentLookupNotFound(parent: Option<Style>, n: Node, key: string, f: nat, a: seq<PathArg>, m: Node)
    ensures ParentLookup(parent, n, key, f) == ReferenceNotFound(a, m) ==> Resolve(m, PathOf(a), true, f) == Ok(None)
    decreases f, 0, 0, parent
  {
    if parent.Some? {
      ChildOfNotFound(parent.value, n, key, f, a, m);
    }
  }

  lemma AsNodeNotFound(s: Style, n: Node, f: nat, a: seq<PathArg>, m: Node)
    ensures AsNode(s, n, f) == ReferenceNotFound(a, m) ==> Resolve(m, PathOf(a), true, f) == Ok(None)
    decreases f, 0, 0, s
  {
    if s.Reference? {
      RefGetNotFound(s.ref, n, f, a, m);
      if RefGet(s.ref, n, f).Ok? && AsNode(s, n, f) == ReferenceNotFound(a, m) {
        AsNodeNotFound(RefGet(s.ref, n, f).value, n, After(s.ref, f), a, m);
        ResolveMoreFuel(m, PathOf(a), true, After(s.ref, f), f);
      }
    }
  }

  lemma ResolveNotFound(n: Node, keys: seq<string>, check: bool, f: nat, a: seq<PathArg>, m: Node)
    ensures Resolve(n, keys, check, f) == ReferenceNotFound(a, m) ==> Resolve(m, PathOf(a), true, f) == Ok(None)
    decreases f, |keys|, 1, 0
  {
    if |keys| > 0 {
      ResolveDownNotFound(n, keys[1..], keys[0], check, f, a, m);
    }
  }

  lemma ResolveDownNotFound(n: Node, rest: seq<string>, key: string, check: bool, f: nat, a: seq<PathArg>, m: Node)
    ensures ResolveDown(n, rest, key, check, f) == ReferenceNotFound(a, m) ==> Resolve(m, PathOf(a), true, f) == Ok(None)
    decreases f, |rest| + 1, 0, n
  {
    var found := ChildOf(n.current, n, key, f);
    ChildOfNotFound(n.current, n, key, f, a, m);
    if found.Ok? {
      if found.value.Some? {
        var s := found.value.value;
        AsNodeNotFound(s, n, f, a, m);
        if AsNode(s, n, f).Ok? {
          ResolveNotFound(AsNode(s, n, f).value, rest, false, f, a, m);
        }
      } else if check && n.parent.Some? {
        ResolveDownNotFound(n.parent.value, rest, key, true, f, a, m);
      }
    }
  }

  lemma NodeGetNotFound(n: Node, args: seq<PathArg>, f: nat, a: seq<PathArg>, m: Node)
    ensures NodeGet(n, args, f) == ReferenceNotFound(a, m) ==> Resolve(m, PathOf(a), true, f) == Ok(None)
    decreases f, |PathOf(args)| + 1, 0, 0
  {
    ResolveNotFound(n, PathOf(args), true, f, a, m);
  }

  // ---------------------------------------------------------------------
  // Node.get and Node.getOrNull
  // ---------------------------------------------------------------------

  /** `get` and `getOrNull` agree: a found style is returned by both;
      `get` throws ReferenceNotFound for these arguments at this node
      exactly when `getOrNull` gives `null` (no self reference met along
      the way can fail with that same error); any other failure is the same
      for both. */
  lemma NodeGetAgreesWithGetOrNull(n: Node, args: seq<PathArg>, fuel: nat)
    ensures forall s :: NodeGet(n, args, fuel) == Ok(s) <==> NodeGetOrNull(n, args, fuel) == Ok(Some(s))
    ensures NodeGetOrNull(n, args, fuel) == Ok(None) <==> NodeGet(n, args, fuel) == ReferenceNotFound(args, n)
    ensures NodeGetOrNull(n, args, fuel).IsFailure() ==>
      NodeGet(n, args, fuel) == NodeGetOrNull(n, args, fuel).PropagateFailure()
  {
    ResolveNotFound(n, PathOf(args), true, fuel, args, n);
  }

  /** The style `Node.get` returns for a non-empty path is a value or a
      group, never a reference. */
  lemma NodeGetNeverReference(n: Node, args: seq<PathArg>, fuel: nat)
    requires |PathOf(args)| > 0
    ensures NodeGet(n, args, fuel).Ok? ==> !NodeGet(n, args, fuel).value.Reference?
  {
    ResolvedFromAncestor(n, PathOf(args), fuel);
  }
}
