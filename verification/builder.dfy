/**
  Building groups. A builder collects named entries (the last write to a
  name wins) over an optional parent style, then picks the group
  representation by the number of entries. Entries keyed by a reference use
  the reference's name, which must be exactly one path segment; a reference
  stored as a value is wrapped in a self reference to its name, so that it
  is looked up where it is used rather than fixed when it is stored.
*/
module GroupBuilder {
  import opened Dotted
  import opened Styles
  import opened Resolution
  import opened ResolutionLaws

  /** The entries collected so far and the parent style given to `group`. */
  datatype Builder = Builder(parent: Option<Style>, values: map<string, Style>)

  /** Why a reference cannot name an entry: its sanitized name has no
      segment, or more than one. */
  datatype NameError =
    | NoName(r: Ref)
    | MultiSegment(r: Ref, segments: seq<string>)

  datatype Checked<T> = Accepted(value: T) | InvalidName(error: NameError) {
    predicate IsFailure() {
      InvalidName?
    }

    function PropagateFailure<U>(): Checked<U>
      requires IsFailure()
    {
      InvalidName(error)
    }

    function Extract(): T
      requires Accepted?
    {
      value
    }
  }

  /** What `set` may be given: a style, or any other value (which becomes
      the payload of a value style). */
  datatype SetArg = SetStyle(style: Style) | SetPlain(payload: Payload)

  /** A fresh builder over `parent`. */
  function NewBuilder(parent: Option<Style>): (b: Builder)
    ensures b.values == map[] && b.parent == parent
  {
    Builder(parent, map[])
  }

  /** `add(name, style)`: `name` now holds `style`; every other entry and
      the parent are kept. */
  function Add(b: Builder, name: string, style: Style): (b': Builder)
    ensures name in b'.values && b'.values[name] == style
    ensures b'.values.Keys == b.values.Keys + {name}
    ensures forall k | k in b.values && k != name :: k in b'.values && b'.values[k] == b.values[k]
    ensures b'.parent == b.parent
  {
    b.(values := b.values[name := style])
  }

  /** `assertName()`: the reference's name, sanitized, must be a single
      segment, which is returned. */
  function AssertName(r: Ref): (res: Checked<string>)
    ensures res.Accepted? <==> |Tokens(RefName(r))| == 1
    ensures res.Accepted? ==> IsToken(res.value) && Tokens(RefName(r)) == [res.value]
    ensures res == InvalidName(NoName(r)) <==> Tokens(RefName(r)) == []
    ensures |Tokens(RefName(r))| >= 2 ==> res == InvalidName(MultiSegment(r, Tokens(RefName(r))))
  {
    var name := Tokens(RefName(r));
    TokensWellFormed(RefName(r));
    if |name| == 0 then InvalidName(NoName(r))
    else if |name| >= 2 then InvalidName(MultiSegment(r, name))
    else Accepted(name[0])
  }

  /** `add(reference)` and the unary `+reference`: store the reference
      itself under its single-segment name. */
  function AddReference(b: Builder, r: Ref): (res: Checked<Builder>)
    ensures res.Accepted? <==> AssertName(r).Accepted?
    ensures res.Accepted? ==> res.value == Add(b, AssertName(r).value, Reference(r))
  {
    var name :- AssertName(r);
    Accepted(Add(b, name, Reference(r)))
  }

  /** `useRefNameInsteadOfRef` followed by `stylized`: a reference becomes
      a self reference whose single argument is that reference (so its path
      is the reference's name); any other style is kept; any other value
      becomes a value style. */
  function StoredStyle(v: SetArg): (s: Style)
    ensures v.SetStyle? && v.style.Reference? ==> s.Reference? && s.ref.SelfReference?
    ensures v.SetStyle? && !v.style.Reference? ==> s == v.style
    ensures v.SetPlain? ==> s == Value(v.payload)
  {
    match v
    case SetStyle(Reference(r)) => Reference(SelfReference([RefArg(r)]))
    case SetStyle(style) => style
    case SetPlain(p) => Value(p)
  }

  /** `reference set value`: store under the reference's single-segment
      name. */
  function SetByReference(b: Builder, r: Ref, v: SetArg): (res: Checked<Builder>)
    ensures res.Accepted? <==> AssertName(r).Accepted?
    ensures res.Accepted? ==> res.value == Add(b, AssertName(r).value, StoredStyle(v))
  {
    var name :- AssertName(r);
    Accepted(Add(b, name, StoredStyle(v)))
  }

  /** `"key" set value`: the string is used as the key as it is, without
      sanitizing. */
  function SetByName(b: Builder, key: string, v: SetArg): (b': Builder)
    ensures key in b'.values && b'.values[key] == StoredStyle(v)
    ensures b'.values.Keys == b.values.Keys + {key}
    ensures forall k | k in b.values && k != key :: k in b'.values && b'.values[k] == b.values[k]
    ensures b'.parent == b.parent
  {
    Add(b, key, StoredStyle(v))
  }

  /** The only key of a one-entry map. */
  function TheKey<V>(m: map<string, V>): (k: string)
    requires |m| == 1
    ensures m.Keys == {k}
  {
    assert forall a, b | a in m && b in m :: a == b by {
      forall a, b | a in m && b in m ensures a == b {
        OneKey(m, a, b);
      }
    }
    var k :| k in m;
    k
  }

  lemma OneKey<V>(m: map<string, V>, a: string, b: string)
    requires |m| == 1 && a in m && b in m
    ensures a == b
  {
    assert |m.Keys - {a}| == 0;
  }

  /** `build()`: no entries give an Empty group, one entry a Single group,
      more a Multi group; the parent is passed on. */
  function Build(b: Builder): (g: GroupShape)
    ensures |b.values| == 0 ==> g.Empty?
    ensures |b.values| == 1 ==> g.Single?
    ensures |b.values| >= 2 ==> g.Multi?
    ensures g.parent == b.parent
  {
    if |b.values| == 0 then Empty(b.parent)
    else if |b.values| == 1 then
      var k := TheKey(b.values);
      Single(k, b.values[k], b.parent)
    else Multi(b.values, b.parent)
  }

  // ---------------------------------------------------------------------
  // Laws
  // ---------------------------------------------------------------------

  /** Whichever representation `build` picks, the group holds exactly the
      builder's keys and answers every key with its entry when there is
      one and with the parent style's answer otherwise. */
  lemma BuildIsRepresentationIndependent(b: Builder, n: Node, key: string, fuel: nat)
    ensures Keys(Build(b)) == b.values.Keys
    ensures GroupGet(Build(b), n, key, fuel) ==
      if key in b.values then Ok(Some(b.values[key])) else ParentLookup(b.parent, n, key, fuel)
  {
    if |b.values| == 0 {
      assert b.values.Keys == {} by {
        assert |b.values.Keys| == 0;
      }
    }
  }

  /** A later `add` of the same name replaces the earlier one; adds of
      different names commute. */
  lemma AddLastWriteWins(b: Builder, name: string, s1: Style, s2: Style, other: string, s3: Style)
    ensures Add(Add(b, name, s1), name, s2) == Add(b, name, s2)
    ensures other != name ==> Add(Add(b, name, s1), other, s3) == Add(Add(b, other, s3), name, s1)
  {
  }

  /** A reference stored with `set` is looked up by its name where it is
      used: the self reference's path is the segments of that name. */
  lemma StoredReferenceFollowsName(r: Ref)
    ensures PathOf(StoredStyle(SetStyle(Reference(r))).ref.args) == Tokens(RefName(r))
  {
    PathOfSingle(RefArg(r));
  }

  /** The name of a reference that passes `assertName` designates exactly
      that one segment. */
  lemma AssertedNameIsSegment(r: Ref)
    requires AssertName(r).Accepted?
    ensures PathOf([RefArg(r)]) == [AssertName(r).value]
    ensures PathOf([Text(AssertName(r).value)]) == [AssertName(r).value]
  {
    PathOfSingle(RefArg(r));
    TokenIsFixed(AssertName(r).value);
    PathOfSingle(Text(AssertName(r).value));
  }
}
