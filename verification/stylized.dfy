/**
  Reading values out of styles. `ValueOf` is the value resolver: it follows
  references (each fetched against the same node) down to a value, whose
  payload it returns, or a group, which it returns as itself. `Deref` is the
  dereferencer: the first style along the same chain that is not a
  reference. `Get` resolves a path from a style and reads the value found.
*/
module Stylized {
  import opened Dotted
  import opened Styles
  import opened Resolution
  import opened ResolutionLaws

  /** What the value resolver hands back: a value's payload, or a group
      itself. */
  datatype Answer =
    | PayloadAnswer(payload: Payload)
    | GroupAnswer(group: GroupShape)

  /** The answer a value or a group stands for by itself. */
  function Read(s: Style): Answer
    requires !s.Reference?
  {
    if s.Value? then PayloadAnswer(s.payload) else GroupAnswer(s.shape)
  }

  /** The `ValueResolver` visitor at node `n`. */
  function ValueOf(s: Style, n: Node, fuel: nat): Outcome<Answer>
    decreases fuel, s
  {
    match s
    case Value(p) => Ok(PayloadAnswer(p))
    case Group(g) => Ok(GroupAnswer(g))
    case Reference(r) =>
      var t :- RefGet(r, n, fuel);
      ValueOf(t, n, After(r, fuel))
  }

  /** The `DeReferencer` visitor at node `n`: values and groups come back
      unchanged, references are replaced by what they lead to. */
  function Deref(s: Style, n: Node, fuel: nat): (res: Outcome<Style>)
    ensures res.Ok? ==> !res.value.Reference?
    ensures !s.Reference? ==> res == Ok(s)
    decreases fuel, s
  {
    match s
    case Value(_) => Ok(s)
    case Group(_) => Ok(s)
    case Reference(r) =>
      var t :- RefGet(r, n, fuel);
      Deref(t, n, After(r, fuel))
  }

  /** `Style.dereference()`: dereference from a root node holding the style. */
  function Dereference(s: Style, fuel: nat): Outcome<Style> {
    Deref(s, Node(s, None), fuel)
  }

  /** `Style.get()` without a path: the value resolver at a root node
      holding the style. */
  function GetValue(s: Style, fuel: nat): Outcome<Answer> {
    ValueOf(s, Node(s, None), fuel)
  }

  /** `Style.get(*args)`: resolve the path from a root node holding the
      style, fall back along nothing but that root, and read the value at
      the node reached. A path that does not resolve is ReferenceNotFound
      for these arguments at the root. */
  function Get(s: Style, args: seq<PathArg>, fuel: nat): Outcome<Answer> {
    var root := Node(s, None);
    var m :- Resolve(root, PathOf(args), true, fuel);
    match m
    case None => ReferenceNotFound(args, root)
    case Some(found) => ValueOf(found.current, found, fuel)
  }

  /** `Style.getOrNull(*args)`: as `Get`, with `None` for a path that does
      not resolve. */
  function GetOrNull(s: Style, args: seq<PathArg>, fuel: nat): Outcome<Option<Answer>> {
    var root := Node(s, None);
    var m :- Resolve(root, PathOf(args), true, fuel);
    match m
    case None => Ok(None)
    case Some(found) =>
      var v :- ValueOf(found.current, found, fuel);
      Ok(Some(v))
  }

  // ---------------------------------------------------------------------
  // Laws
  // ---------------------------------------------------------------------

  /** The dereferencer is reference chasing: it ends where `Chase` ends. */
  lemma {:induction false} DerefIsChase(s: Style, n: Node, fuel: nat)
    ensures var c := Chase(s, n, fuel);
      Deref(s, n, fuel) == if c.Ok? then Ok(c.value.0) else c.PropagateFailure()
    decreases fuel, s
  {
    if s.Reference? {
      var r := s.ref;
      var t := RefGet(r, n, fuel);
      if t.Ok? {
        DerefIsChase(t.value, n, After(r, fuel));
      }
    }
  }

  /** Dereferencing twice is dereferencing once, from any node and with
      any fuel. */
  lemma DerefIdempotent(s: Style, n: Node, fuel: nat, n': Node, fuel': nat)
    ensures Deref(s, n, fuel).Ok? ==> Deref(Deref(s, n, fuel).value, n', fuel') == Deref(s, n, fuel)
  {
  }

  /** The value resolver reads what the dereferencer reaches. */
  lemma {:induction false} ValueOfIsReadOfDeref(s: Style, n: Node, fuel: nat)
    ensures var d := Deref(s, n, fuel);
      ValueOf(s, n, fuel) == if d.Ok? then Ok(Read(d.value)) else d.PropagateFailure()
    decreases fuel, s
  {
    if s.Reference? {
      var r := s.ref;
      var t := RefGet(r, n, fuel);
      if t.Ok? {
        ValueOfIsReadOfDeref(t.value, n, After(r, fuel));
      }
    }
  }

  /** Reading a style and reading its dereferenced form give the same
      answer: payloads do not depend on the node they are read at. */
  lemma ValueOfDereferenced(s: Style, n: Node, fuel: nat, n': Node, fuel': nat)
    ensures Deref(s, n, fuel).Ok? ==> ValueOf(Deref(s, n, fuel).value, n', fuel') == ValueOf(s, n, fuel)
  {
    ValueOfIsReadOfDeref(s, n, fuel);
  }

  /** `x.get()` equals `x.dereference().get()` whenever dereferencing
      succeeds. */
  lemma GetValueOfDereference(s: Style, fuel: nat, fuel': nat)
    ensures Dereference(s, fuel).Ok? ==> GetValue(Dereference(s, fuel).value, fuel') == GetValue(s, fuel)
  {
    if Dereference(s, fuel).Ok? {
      ValueOfDereferenced(s, Node(s, None), fuel, Node(Dereference(s, fuel).value, None), fuel');
    }
  }

  /** Arguments that denote no segment (nothing, nulls, dots and blanks)
      read the style itself. */
  lemma EmptyPathReadsStyle(s: Style, args: seq<PathArg>, fuel: nat)
    requires PathOf(args) == []
    ensures Get(s, args, fuel) == GetValue(s, fuel)
  {
  }

  /** For a non-empty path, `Get` is the resolved node's style read as it
      is: a payload or a group, with no further reference to follow. */
  lemma GetReadsResolvedStyle(s: Style, args: seq<PathArg>, fuel: nat)
    requires |PathOf(args)| > 0
    ensures var r := Resolve(Node(s, None), PathOf(args), true, fuel);
      r.Ok? && r.value.Some? ==>
        && !r.value.value.current.Reference?
        && Get(s, args, fuel) == Ok(Read(r.value.value.current))
  {
    var r := Resolve(Node(s, None), PathOf(args), true, fuel);
    ResolvedFromAncestor(Node(s, None), PathOf(args), fuel);
    if r.Ok? && r.value.Some? {
      ValueOfIsReadOfDeref(r.value.value.current, r.value.value, fuel);
    }
  }

  /** `get` and `getOrNull` agree: the same answer when the path resolves,
      ReferenceNotFound for these arguments at the root against `null` when
      it does not, and the same failure otherwise. */
  lemma GetAgreesWithGetOrNull(s: Style, args: seq<PathArg>, fuel: nat)
    ensures forall v :: Get(s, args, fuel) == Ok(v) <==> GetOrNull(s, args, fuel) == Ok(Some(v))
    ensures GetOrNull(s, args, fuel) == Ok(None) ==> Get(s, args, fuel) == ReferenceNotFound(args, Node(s, None))
    ensures GetOrNull(s, args, fuel).IsFailure() ==> Get(s, args, fuel) == GetOrNull(s, args, fuel).PropagateFailure()
  {
  }

  /** A path may be given as references, strings, dotted strings or nested
      arrays: only its segments matter. */
  lemma GetDependsOnlyOnSegments(s: Style, args: seq<PathArg>, args': seq<PathArg>, fuel: nat)
    requires PathOf(args) == PathOf(args')
    ensures Get(s, args, fuel).Ok? <==> Get(s, args', fuel).Ok?
    ensures Get(s, args, fuel).Ok? ==> Get(s, args, fuel) == Get(s, args', fuel)
  {
  }

  /** The value resolver does not depend on the fuel granted, once that is
      enough to finish. */
  lemma ValueOfMoreFuel(s: Style, n: Node, f: nat, f': nat)
    requires f <= f' && !ValueOf(s, n, f).OutOfFuel?
    ensures ValueOf(s, n, f') == ValueOf(s, n, f)
    decreases f, s
  {
    if s.Reference? {
      RefGetMoreFuel(s.ref, n, f, f');
      if RefGet(s.ref, n, f).Ok? {
        ValueOfMoreFuel(RefGet(s.ref, n, f).value, n, After(s.ref, f), After(s.ref, f'));
      }
    }
  }

  /** `Style.get(*args)` gives the same answer with any fuel beyond one that
      does not run out: fuel only stands in for the non-termination of a
      cyclic self reference. */
  lemma GetMoreFuel(s: Style, args: seq<PathArg>, f: nat, f': nat)
    requires f <= f' && !Get(s, args, f).OutOfFuel?
    ensures Get(s, args, f') == Get(s, args, f)
  {
    var root := Node(s, None);
    var r := Resolve(root, PathOf(args), true, f);
    ResolveMoreFuel(root, PathOf(args), true, f, f');
    if r.Ok? && r.value.Some? {
      ValueOfMoreFuel(r.value.value.current, r.value.value, f, f');
    }
  }
}
