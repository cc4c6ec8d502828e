/**
  The style tree. A style is a Value (an opaque payload), a Group (a keyed
  collection of styles that may fall back to a parent style) or a Reference
  (a style that stands for another one). A Node is one step of the scope
  chain used while resolving paths: the style being looked into and the node
  it was reached from.

  Path arguments are the heterogeneous `vararg` values callers pass to `get`
  and `reference`; `ExtractStrings` flattens them to raw strings and
  `PathOf` sanitizes those into path segments.
*/
module Styles {
  import opened Dotted

  /** The payload of a value style. The engine never looks inside it. */
  type Payload = string

  datatype Option<T> = None | Some(value: T)

  datatype Style =
    | Value(payload: Payload)
    | Group(shape: GroupShape)
    | Reference(ref: Ref)

  /** The three group representations the builder chooses between. Each may
      name a parent style to consult for keys it does not hold. */
  datatype GroupShape =
    | Empty(parent: Option<Style>)
    | Single(key: string, value: Style, parent: Option<Style>)
    | Multi(styles: map<string, Style>, parent: Option<Style>)

  /** References with a fixed target, and self references that resolve
      their own path from the node they are used at. */
  datatype Ref =
    | StyleReference(target: Style)
    | NamedReference(name: string, target: Style)
    | SelfReference(args: seq<PathArg>)

  /** One path argument: Kotlin `null`, anything rendered through
      `toString`, a reference (which contributes its name), or an array or
      collection of further arguments. */
  datatype PathArg =
    | Null
    | Text(text: string)
    | RefArg(ref: Ref)
    | Items(items: seq<PathArg>)

  /** The scope chain: a style and the node it was reached from. */
  datatype Node = Node(current: Style, parent: Option<Node>)

  /** Outcome of anything that can re-enter `Node.get` through a self
      reference. `Ok(None)` is Kotlin's `null`; `ReferenceNotFound` is the
      exception `Node.get` throws, with the arguments and the node it was
      thrown for; `OutOfFuel` marks a self-reference chain deeper than the
      fuel the caller granted (the original loops or overflows its stack). */
  datatype Outcome<T> =
    | Ok(value: T)
    | ReferenceNotFound(args: seq<PathArg>, at: Node)
    | OutOfFuel
  {
    predicate IsFailure() {
      !Ok?
    }

    function PropagateFailure<U>(): Outcome<U>
      requires IsFailure()
    {
      if ReferenceNotFound? then ReferenceNotFound(args, at) else OutOfFuel
    }

    function Extract(): T
      requires Ok?
    {
      value
    }
  }

  predicate IsReference(s: Style) {
    s.Reference?
  }

  // ---------------------------------------------------------------------
  // Names and path arguments
  // ---------------------------------------------------------------------

  /** `Reference.name()`: empty for a plain StyleReference, the stored name
      for a NamedReference, and for a SelfReference its own path written as
      a dotted string. */
  function RefName(r: Ref): string
    decreases r, 2
  {
    match r
    case StyleReference(_) => ""
    case NamedReference(name, _) => name
    case SelfReference(args) => Join(Sanitize(ExtractStrings(args)))
  }

  /** `extractStrings` over the vararg array: each argument's strings, left
      to right. */
  function ExtractStrings(args: seq<PathArg>): seq<string>
    decreases args, 1
  {
    if |args| == 0 then []
    else ExtractOne(args[0]) + ExtractStrings(args[1..])
  }

  /** `extractStrings` of one argument. */
  function ExtractOne(a: PathArg): seq<string>
    decreases a, 0
  {
    match a
    case Null => []
    case Text(t) => [t]
    case RefArg(r) => [RefName(r)]
    case Items(xs) => ExtractStrings(xs)
  }

  /** The path segments the arguments denote: extracted, then sanitized. */
  function PathOf(args: seq<PathArg>): (path: seq<string>)
    ensures AllTokens(path)
  {
    Sanitize(ExtractStrings(args))
  }

  /** The Kotlin `Node.equals`: same current style and recursively equal
      parents, a missing parent equal only to a missing parent. */
  predicate NodeEquals(a: Node, b: Node)
    decreases a
  {
    && a.current == b.current
    && match (a.parent, b.parent)
       case (None, None) => true
       case (Some(p), Some(q)) => NodeEquals(p, q)
       case _ => false
  }

  // ---------------------------------------------------------------------
  // Laws
  // ---------------------------------------------------------------------

  /** Extraction works argument by argument, left to right. */
  lemma {:induction false} ExtractConcat(a: seq<PathArg>, b: seq<PathArg>)
    ensures ExtractStrings(a + b) == ExtractStrings(a) + ExtractStrings(b)
  {
    if |a| == 0 {
      assert a + b == b;
    } else {
      assert (a + b)[1..] == a[1..] + b;
      ExtractConcat(a[1..], b);
    }
  }

  /** Paths compose: the segments of a + b are those of a, then those of b.
      So nesting arguments in arrays or splitting them over several varargs
      never changes the path. */
  lemma PathOfConcat(a: seq<PathArg>, b: seq<PathArg>)
    ensures PathOf(a + b) == PathOf(a) + PathOf(b)
  {
    ExtractConcat(a, b);
    SanitizeConcat(ExtractStrings(a), ExtractStrings(b));
  }

  /** An array argument contributes exactly the path of its elements. */
  lemma PathOfItems(xs: seq<PathArg>)
    ensures PathOf([Items(xs)]) == PathOf(xs)
  {
    assert ExtractStrings([Items(xs)]) == ExtractStrings(xs) + ExtractStrings([]);
    assert ExtractStrings(xs) + ExtractStrings([]) == ExtractStrings(xs);
  }

  /** A reference used as a path argument contributes the segments of its
      name; `null` contributes nothing. */
  lemma PathOfSingle(a: PathArg)
    ensures a.Null? ==> PathOf([a]) == []
    ensures a.Text? ==> PathOf([a]) == Tokens(a.text)
    ensures a.RefArg? ==> PathOf([a]) == Tokens(RefName(a.ref))
  {
    assert ExtractStrings([a]) == ExtractOne(a) + ExtractStrings([]);
    var t := ExtractOne(a);
    if |t| == 1 {
      assert Sanitize(t) == Tokens(t[0]) + Sanitize([]);
    }
  }

  /** Writing well-formed segments as one dotted string designates the
      same path. */
  lemma DottedTextPath(xs: seq<string>)
    requires AllTokens(xs)
    ensures PathOf([Text(Join(xs))]) == xs
  {
    PathOfSingle(Text(Join(xs)));
    RoundTrip(xs);
  }

  /** The name of a self reference designates its own path: reading the
      name back as a dotted string gives the segments it was built from. */
  lemma SelfNameIsPath(args: seq<PathArg>)
    ensures Tokens(RefName(SelfReference(args))) == PathOf(args)
    ensures PathOf([Text(RefName(SelfReference(args)))]) == PathOf(args)
  {
    RoundTrip(PathOf(args));
    DottedTextPath(PathOf(args));
  }

  /** Kotlin `Node.equals` coincides with structural equality. */
  lemma {:induction false} NodeEqualsIff(a: Node, b: Node)
    ensures NodeEquals(a, b) <==> a == b
    decreases a
  {
    if a.parent.Some? && b.parent.Some? {
      NodeEqualsIff(a.parent.value, b.parent.value);
    }
  }
}
