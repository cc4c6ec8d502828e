/**
  The worked example that documents `Node.resolve`, replayed on the model:
  a group `foo` holding a group `bar` under "a", and two values under "c"
  and "d"; `bar` holds values under "b" and "c". "In @foo" is the root node
  of `foo`; "in @bar" is the node that resolving "a" from it pushes. No
  reference occurs, so every answer holds with any fuel.
*/
module ResolveExample {
  import opened Styles
  import opened Resolution
  import opened ResolutionLaws

  const barGroup := Multi(map["b" := Value("1"), "c" := Value("2")], None)
  const fooGroup := Multi(map["a" := Group(barGroup), "c" := Value("3"), "d" := Value("4")], None)

  /** The node of `foo`, and the node of `bar` reached from it. */
  const atFoo := Node(Group(fooGroup), None)
  const atBar := Node(Group(barGroup), Some(atFoo))

  /** What each group answers for each key, from any node. */
  lemma FooEntries(n: Node, fuel: nat)
    ensures ChildOf(Group(fooGroup), n, "a", fuel) == Ok(Some(Group(barGroup)))
    ensures ChildOf(Group(fooGroup), n, "b", fuel) == Ok(None)
    ensures ChildOf(Group(fooGroup), n, "c", fuel) == Ok(Some(Value("3")))
    ensures ChildOf(Group(fooGroup), n, "d", fuel) == Ok(Some(Value("4")))
  {
    assert Keys(fooGroup) == {"a", "c", "d"};
    GroupKeysAnswerLocally(fooGroup, n, "a", fuel, n, fuel);
    GroupKeysAnswerLocally(fooGroup, n, "b", fuel, n, fuel);
    GroupKeysAnswerLocally(fooGroup, n, "c", fuel, n, fuel);
    GroupKeysAnswerLocally(fooGroup, n, "d", fuel, n, fuel);
  }

  lemma BarEntries(n: Node, fuel: nat)
    ensures ChildOf(Group(barGroup), n, "a", fuel) == Ok(None)
    ensures ChildOf(Group(barGroup), n, "b", fuel) == Ok(Some(Value("1")))
    ensures ChildOf(Group(barGroup), n, "c", fuel) == Ok(Some(Value("2")))
    ensures ChildOf(Group(barGroup), n, "d", fuel) == Ok(None)
  {
    assert Keys(barGroup) == {"b", "c"};
    GroupKeysAnswerLocally(barGroup, n, "a", fuel, n, fuel);
    GroupKeysAnswerLocally(barGroup, n, "b", fuel, n, fuel);
    GroupKeysAnswerLocally(barGroup, n, "c", fuel, n, fuel);
    GroupKeysAnswerLocally(barGroup, n, "d", fuel, n, fuel);
  }

  /** A one-segment path missing at `n` is resolved from its parent node. */
  lemma MissingAt(n: Node, p: Node, k: string, fuel: nat)
    requires n.parent == Some(p) && ChildOf(n.current, n, k, fuel) == Ok(None)
    ensures Resolve(n, [k], true, fuel) == Resolve(p, [k], true, fuel)
  {
    assert [k][1..] == [];
  }

  /** `[a]` designates `bar` from either node: from `bar` the key is missing
      and is found one node up. */
  lemma ResolveA(fuel: nat)
    ensures Resolve(atFoo, ["a"], true, fuel) == Ok(Some(atBar))
    ensures Resolve(atBar, ["a"], true, fuel) == Ok(Some(atBar))
  {
    FooEntries(atFoo, fuel);
    BarEntries(atBar, fuel);
    ResolveOne(atFoo, "a", true, fuel, Group(barGroup));
    MissingAt(atBar, atFoo, "a", fuel);
  }

  /** `[a, b]` designates the value 1 inside `bar`, from either node. */
  lemma ResolveAB(fuel: nat)
    ensures Resolve(atFoo, ["a", "b"], true, fuel) == Ok(Some(Node(Value("1"), Some(atBar))))
    ensures Resolve(atBar, ["a", "b"], true, fuel) == Ok(Some(Node(Value("1"), Some(atBar))))
  {
    FooEntries(atFoo, fuel);
    BarEntries(atBar, fuel);
    var below := Resolve(atBar, ["b"], false, fuel);
    ResolveOne(atBar, "b", false, fuel, Value("1"));
    assert ["a", "b"][1..] == ["b"];
    assert AsNode(Group(barGroup), atFoo, fuel) == Ok(atBar);
    assert ResolveDown(atFoo, ["b"], "a", true, fuel) == below;
    assert ResolveDown(atBar, ["b"], "a", true, fuel) == below;
  }

  /** `[b]` is null from `foo`, which does not hold it and has no parent
      node, and the value 1 from `bar`. */
  lemma ResolveB(fuel: nat)
    ensures Resolve(atFoo, ["b"], true, fuel) == Ok(None)
    ensures Resolve(atBar, ["b"], true, fuel) == Ok(Some(Node(Value("1"), Some(atBar))))
  {
    FooEntries(atFoo, fuel);
    BarEntries(atBar, fuel);
    assert ["b"][1..] == [];
    ResolveOne(atBar, "b", true, fuel, Value("1"));
  }

  /** `[c]` is the nearest holder's value: 3 from `foo`, 2 from `bar`. */
  lemma ResolveC(fuel: nat)
    ensures Resolve(atFoo, ["c"], true, fuel) == Ok(Some(Node(Value("3"), Some(atFoo))))
    ensures Resolve(atBar, ["c"], true, fuel) == Ok(Some(Node(Value("2"), Some(atBar))))
  {
    FooEntries(atFoo, fuel);
    BarEntries(atBar, fuel);
    ResolveOne(atFoo, "c", true, fuel, Value("3"));
    ResolveOne(atBar, "c", true, fuel, Value("2"));
  }

  /** `[d]` is 4 from either node, found in `foo`. */
  lemma ResolveD(fuel: nat)
    ensures Resolve(atFoo, ["d"], true, fuel) == Ok(Some(Node(Value("4"), Some(atFoo))))
    ensures Resolve(atBar, ["d"], true, fuel) == Ok(Some(Node(Value("4"), Some(atFoo))))
  {
    FooEntries(atFoo, fuel);
    BarEntries(atBar, fuel);
    ResolveOne(atFoo, "d", true, fuel, Value("4"));
    MissingAt(atBar, atFoo, "d", fuel);
  }
}
