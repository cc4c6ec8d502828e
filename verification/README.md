# stylized, modelled in Dafny

A model of the resolution engine of the Kotlin library *stylized*. That library builds hierarchical style trees and looks values up in them by dotted paths. The model covers:

- **Dotted-path tokenizer** (module `Dotted`).
  - `tokenizeDottedString` splits on `.`, trims whitespace and drops blank pieces. The scanning loop is modelled as a method. A declarative specification "split, trim, keep" is proved equal to it.
  - `sanitize` is modelled, and so is `joinAsDottedString` with its StringBuilder loop.
- **Styles and paths** (module `Styles`).
  - The three style kinds, with `Value`, `Group` and `Reference`.
  - The group representations `Empty`, `Single` and `Multi`.
  - The reference kinds `StyleReference`, `NamedReference` and `SelfReference`.
  - The `Node` scope chain and its equality.
  - `extractStrings`: how the arguments of a lookup become path segments.
- **Path resolution** (module `Resolution`).
  - `Node.resolve`/`resolveDown`, the `StyleResolver` and `StyleAsNode` visitors, and `Node.get`/`getOrNull`.
  - `StyleGroup.get`, `Group.keys()` and `Reference.get`.
  - Only the first segment of a path falls back along the scope chain. Every later segment must be held by the style the previous segment matched: directly, through that group's parent style, or through references.
- **Laws of resolution** (module `ResolutionLaws`). Reference definitions are given by:
  - `Chase`: follow references down to a value or a group;
  - `FirstMatch`: the earliest node of the scope chain holding a key;
  - `AndThen`: sequential resolution.
  Lemmas relate each of them to the engine.
- **Reading values** (module `Stylized`). The `ValueResolver` and `DeReferencer` visitors, `Style.get()` and `Style.get(path)`/`getOrNull(path)`, and `dereference`.
- **Building groups** (module `GroupBuilder`). `StyleGroupBuilder`:
  - `add`, `add(reference)`, the unary `+` and the two `set` forms;
  - `assertName` and `useRefNameInsteadOfRef`;
  - `build`, which picks the group representation by entry count.
- **The documented resolve example** (module `ResolveExample`). The group `foo@{ a: bar@{ b: 1, c: 2 }, c: 3, d: 4 }` from the documentation of `Node.resolve`, with every answer it documents proved.
- **The README example** (module `ReadmeExample`). The styles `colors`, `lightTheme` and `buttonStyle`:
  - built through the builder;
  - every assertion of the example proved as a lemma about `Get`.

Every lookup takes a `fuel: nat` argument, and the outcome type is `Outcome<T>` with three cases:

- `Ok(value)`;
- `ReferenceNotFound(args, node)`, the exception `Node.get` throws;
- `OutOfFuel`.

Only a self reference spends fuel, because fetching its target re-enters `Node.get`. The original code has no cycle check, so a cyclic self reference does not terminate there; in the model it ends in `OutOfFuel`. More fuel never changes an outcome that is not `OutOfFuel`, so fuel only decides whether an answer is reached, never which one. Kotlin's `null` is `Ok(None)`. A self reference that fails inside a lookup makes the whole lookup fail, even through `getOrNull`, because `SelfReference.get` calls the throwing `Node.get`. The payload of a value is an opaque string.

## Model

| member | source | states |
|---|---|---|
| Dotted.TokenizeDottedString | src/commonMain/kotlin/net/orandja/kt/stylized/Utils.kt:39-62 | The scanning tokenizer (skip leading dots and blanks, then track word start and end) returns exactly the pieces between dots, trimmed, with blank ones dropped, in input order; every token is well formed |
| Dotted.TokensWellFormed | src/commonMain/kotlin/net/orandja/kt/stylized/Utils.kt:48-61 | Every token is non-empty, contains no dot and has no leading or trailing whitespace |
| Dotted.TokensEmptyIff | src/commonMain/kotlin/net/orandja/kt/stylized/Utils.kt:40-46 | The tokenizer yields nothing if and only if the input consists only of dots and whitespace (the empty string included) |
| Dotted.TokenIsFixed | src/commonMain/kotlin/net/orandja/kt/stylized/Utils.kt:27-38 | A well-formed segment tokenizes to itself alone |
| Dotted.TokensTrailingDot | src/commonMain/kotlin/net/orandja/kt/stylized/Utils.kt:33 | A trailing dot never changes the tokens |
| Dotted.TokensAcrossDot | src/commonMain/kotlin/net/orandja/kt/stylized/Utils.kt:34 | A dot cuts a string into two halves tokenized independently, so runs of dots between segments act as one |
| Dotted.TokensSkipLeading | src/commonMain/kotlin/net/orandja/kt/stylized/Utils.kt:45 | Any prefix of dots and whitespace is ignored |
| Dotted.TokensSkipTrailing | src/commonMain/kotlin/net/orandja/kt/stylized/Utils.kt:31-33 | Any suffix of dots and whitespace is ignored |
| Dotted.PaddedSegment | src/commonTest/kotlin/net/orandja/kt/stylized/TokenizeDottedStringTest.kt:48-60 | A segment surrounded by any mix of dots and blanks tokenizes to that one segment |
| Dotted.JoinedSegments | src/commonTest/kotlin/net/orandja/kt/stylized/TokenizeDottedStringTest.kt:62-110 | Pieces that each tokenize to one segment, joined with dots, tokenize to those segments in order |
| Dotted.InnerSpaceBeforeDot | src/commonTest/kotlin/net/orandja/kt/stylized/TokenizeDottedStringTest.kt:114 | Whitespace inside a segment is kept: "a b. c" gives "a b" and "c" |
| Dotted.InnerSpaceAfterDot | src/commonTest/kotlin/net/orandja/kt/stylized/TokenizeDottedStringTest.kt:115 | "a.b c" gives "a" and "b c" |
| Dotted.JoinAsDottedString | src/commonMain/kotlin/net/orandja/kt/stylized/Utils.kt:81-89 | The append-then-cut loop yields the empty string for no elements, otherwise the elements separated by single dots with no trailing dot |
| Dotted.SplitJoin | src/commonMain/kotlin/net/orandja/kt/stylized/Utils.kt:81-89 | Splitting on dots undoes the dotted join of dot-free elements |
| Dotted.JoinSplit | src/commonMain/kotlin/net/orandja/kt/stylized/Utils.kt:81-89 | Joining the pieces of a split gives the string back |
| Dotted.RoundTrip | src/commonMain/kotlin/net/orandja/kt/stylized/Utils.kt:39-89 | Tokenizing the dotted join of well-formed segments gives the segments back |
| Dotted.Sanitize | src/commonMain/kotlin/net/orandja/kt/stylized/Utils.kt:65 | Sanitizing yields only well-formed segments |
| Dotted.SanitizeConcat | src/commonMain/kotlin/net/orandja/kt/stylized/Utils.kt:65 | Sanitizing works string by string, preserving order |
| Dotted.SanitizeTokens | src/commonMain/kotlin/net/orandja/kt/stylized/Utils.kt:65 | Well-formed segments pass through the sanitizer unchanged |
| Dotted.SanitizeIdempotent | src/commonMain/kotlin/net/orandja/kt/stylized/Utils.kt:65 | Sanitizing twice is sanitizing once |
| Styles.PathOf | src/commonMain/kotlin/net/orandja/kt/stylized/Style.kt:97 | The path that lookup arguments denote consists of well-formed segments |
| Styles.ExtractConcat | src/commonMain/kotlin/net/orandja/kt/stylized/Utils.kt:66-79 | String extraction works argument by argument, left to right |
| Styles.PathOfConcat | src/commonMain/kotlin/net/orandja/kt/stylized/Style.kt:97 | The path of concatenated arguments is the concatenation of their paths |
| Styles.PathOfItems | src/commonMain/kotlin/net/orandja/kt/stylized/Utils.kt:72-76 | An array or collection argument contributes exactly the path of its elements |
| Styles.PathOfSingle | src/commonMain/kotlin/net/orandja/kt/stylized/Utils.kt:68-77 | null contributes nothing, a string its tokens, a reference the tokens of its name |
| Styles.DottedTextPath | src/commonMain/kotlin/net/orandja/kt/stylized/Utils.kt:77 | Well-formed segments written as one dotted string designate the same path |
| Styles.SelfNameIsPath | src/commonMain/kotlin/net/orandja/kt/stylized/dsl/Klasses.kt:22-25 | A self reference's name, read back as a dotted string, designates the same path the reference resolves |
| Styles.NodeEqualsIff | src/commonMain/kotlin/net/orandja/kt/stylized/Style.kt:141-151 | Node equality holds if and only if the current styles are equal and the parent chains are recursively equal |
| Resolution.RefGet | src/commonMain/kotlin/net/orandja/kt/stylized/dsl/Klasses.kt:17-33 | Style and named references return their stored target whatever the node; a self reference with no fuel left is OutOfFuel |
| ResolutionLaws.SelfReferenceGet | src/commonMain/kotlin/net/orandja/kt/stylized/dsl/Klasses.kt:22-23 | A self reference fetched at a node resolves its own path from that node, with fallback: the node found gives its style, a path that does not resolve is ReferenceNotFound for its arguments at that node, and other failures pass through |
| ResolutionLaws.RefGetMoreFuel | src/commonMain/kotlin/net/orandja/kt/stylized/dsl/Klasses.kt:23 | Fetching a reference's target gives the same outcome with more fuel, unless it ran out |
| ResolutionLaws.ChildOfMoreFuel | src/commonMain/kotlin/net/orandja/kt/stylized/Style.kt:115-120 | Key lookup in a style gives the same outcome with more fuel, unless it ran out |
| ResolutionLaws.GroupGetMoreFuel | src/commonMain/kotlin/net/orandja/kt/stylized/dsl/Klasses.kt:55-83 | Group lookup gives the same outcome with more fuel, unless it ran out |
| ResolutionLaws.ParentLookupMoreFuel | src/commonMain/kotlin/net/orandja/kt/stylized/dsl/Klasses.kt:48-53 | Lookup in a group's parent style gives the same outcome with more fuel, unless it ran out |
| ResolutionLaws.AsNodeMoreFuel | src/commonMain/kotlin/net/orandja/kt/stylized/Style.kt:123-127 | Building the node for a match gives the same outcome with more fuel, unless it ran out |
| ResolutionLaws.ResolveMoreFuel | src/commonMain/kotlin/net/orandja/kt/stylized/Style.kt:99-102 | Path resolution gives the same outcome with more fuel, unless it ran out |
| ResolutionLaws.ResolveDownMoreFuel | src/commonMain/kotlin/net/orandja/kt/stylized/Style.kt:104-112 | Segment lookup gives the same outcome with more fuel, unless it ran out |
| ResolutionLaws.NodeGetMoreFuel | src/commonMain/kotlin/net/orandja/kt/stylized/Style.kt:131-135 | `Node.get` gives the same outcome with more fuel, unless it ran out |
| ResolutionLaws.RefGetNotFound | src/commonMain/kotlin/net/orandja/kt/stylized/dsl/Klasses.kt:23 | Fetching a reference fails with ReferenceNotFound(a, m) only if the path of a, resolved from m, finds nothing |
| ResolutionLaws.ChildOfNotFound | src/commonMain/kotlin/net/orandja/kt/stylized/Style.kt:115-120 | Key lookup fails with ReferenceNotFound(a, m) only if the path of a, resolved from m, finds nothing |
| ResolutionLaws.GroupGetNotFound | src/commonMain/kotlin/net/orandja/kt/stylized/dsl/Klasses.kt:55-83 | Group lookup fails with ReferenceNotFound(a, m) only if the path of a, resolved from m, finds nothing |
| ResolutionLaws.ParentLookupNotFound | src/commonMain/kotlin/net/orandja/kt/stylized/dsl/Klasses.kt:48-53 | Parent-style lookup fails with ReferenceNotFound(a, m) only if the path of a, resolved from m, finds nothing |
| ResolutionLaws.AsNodeNotFound | src/commonMain/kotlin/net/orandja/kt/stylized/Style.kt:123-127 | Building a match's node fails with ReferenceNotFound(a, m) only if the path of a, resolved from m, finds nothing |
| ResolutionLaws.ResolveNotFound | src/commonMain/kotlin/net/orandja/kt/stylized/Style.kt:99-102 | Path resolution fails with ReferenceNotFound(a, m) only if the path of a, resolved from m, finds nothing |
| ResolutionLaws.ResolveDownNotFound | src/commonMain/kotlin/net/orandja/kt/stylized/Style.kt:104-112 | Segment lookup fails with ReferenceNotFound(a, m) only if the path of a, resolved from m, finds nothing |
| ResolutionLaws.NodeGetNotFound | src/commonMain/kotlin/net/orandja/kt/stylized/Style.kt:131-135 | `Node.get` fails with ReferenceNotFound(a, m) only if the path of a, resolved from m, finds nothing: that error is created nowhere else |
| ResolutionLaws.Chase | src/commonMain/kotlin/net/orandja/kt/stylized/Style.kt:118-119 | Following references ends at a value or a group, never a reference, and never gains fuel |
| ResolutionLaws.LookupThroughReferences | src/commonMain/kotlin/net/orandja/kt/stylized/Style.kt:115-120 | Key lookup in a reference is key lookup in the style its chain of references ends at, fetched against the same node |
| ResolutionLaws.NodeOfMatch | src/commonMain/kotlin/net/orandja/kt/stylized/Style.kt:123-127 | The node pushed for a match holds the non-reference style the match leads to, and its parent is the node where the key matched |
| ResolutionLaws.ResolveOne | src/commonMain/kotlin/net/orandja/kt/stylized/Style.kt:99-108 | A one-segment path whose key is matched at the start by a value or a group resolves, with or without fallback, to a new node holding that style whose parent is the start |
| ResolutionLaws.GroupKeysAnswerLocally | src/commonMain/kotlin/net/orandja/kt/stylized/dsl/Klasses.kt:55-83 | A key a group holds is answered by its own entry (the single value, or the map's entry for that key), whatever the node and the fuel; any other key gets exactly the parent style's answer |
| ResolutionLaws.FirstMatchIsEarliest | src/commonMain/kotlin/net/orandja/kt/stylized/Style.kt:106-110 | The first-match search returns the earliest node of the chain holding the key, and finds nothing if and only if no node holds it |
| ResolutionLaws.FirstSegmentFallsBack | src/commonMain/kotlin/net/orandja/kt/stylized/Style.kt:104-112 | Resolution with fallback finds the first segment at the earliest ancestor holding it and descends from there; an exhausted chain gives null |
| ResolutionLaws.NoFallbackAfterMatch | src/commonMain/kotlin/net/orandja/kt/stylized/Style.kt:108-111 | Without fallback, a key the current style does not hold gives null whatever the ancestors hold |
| ResolutionLaws.ResolvedNodeShape | src/commonMain/kotlin/net/orandja/kt/stylized/Style.kt:99-108 | Without fallback, a resolved node lies exactly as many levels below the start as the path has segments, and for a non-empty path it never holds a reference; with fallback the levels count from the ancestor that matched (see ResolvedFromAncestor) |
| ResolutionLaws.ResolveDownShape | src/commonMain/kotlin/net/orandja/kt/stylized/Style.kt:104-112 | The node a segment lookup ends at descends from a node of the starting scope chain (the start itself without fallback) and holds no reference |
| ResolutionLaws.ResolvedFromAncestor | src/commonMain/kotlin/net/orandja/kt/stylized/Style.kt:97-112 | With fallback, the resolved node descends from an ancestor of the starting node and holds no reference |
| ResolutionLaws.ResolveConcat | src/commonMain/kotlin/net/orandja/kt/stylized/Style.kt:99-108 | Resolving a path in two parts equals resolving the first part, then the rest without fallback |
| ResolutionLaws.ResolveDownConcat | src/commonMain/kotlin/net/orandja/kt/stylized/Style.kt:104-112 | Segment lookup followed by more segments is that lookup continued without fallback |
| ResolutionLaws.NodeGetAgreesWithGetOrNull | src/commonMain/kotlin/net/orandja/kt/stylized/Style.kt:131-137 | `get` returns the resolved style exactly when `getOrNull` does; it throws ReferenceNotFound for these arguments at this node exactly when `getOrNull` gives null (no nested self reference can fail with that same error); other failures are shared |
| ResolutionLaws.NodeGetNeverReference | src/commonMain/kotlin/net/orandja/kt/stylized/Style.kt:131-135 | For a non-empty path, `Node.get` never returns a reference |
| Stylized.Deref | src/commonMain/kotlin/net/orandja/kt/stylized/Stylized.kt:49-53 | The dereferencer returns values and groups unchanged and never returns a reference |
| Stylized.DerefIsChase | src/commonMain/kotlin/net/orandja/kt/stylized/Stylized.kt:49-53 | Dereferencing ends where the chain of references ends |
| Stylized.DerefIdempotent | src/commonMain/kotlin/net/orandja/kt/stylized/Stylized.kt:47-53 | Dereferencing a dereferenced style changes nothing, from any node and with any fuel |
| Stylized.ValueOfIsReadOfDeref | src/commonMain/kotlin/net/orandja/kt/stylized/Stylized.kt:39-53 | The value resolver gives the payload of the value, or the group, that the dereferencer reaches |
| Stylized.ValueOfDereferenced | src/commonMain/kotlin/net/orandja/kt/stylized/Stylized.kt:39-53 | A style and its dereferenced form resolve to the same value, wherever the latter is read |
| Stylized.GetValueOfDereference | src/commonMain/kotlin/net/orandja/kt/stylized/Stylized.kt:17-53 | `x.get()` equals `x.dereference().get()` whenever dereferencing succeeds |
| Stylized.EmptyPathReadsStyle | src/commonMain/kotlin/net/orandja/kt/stylized/Stylized.kt:23-27 | Arguments that denote no segment read the style itself |
| Stylized.GetReadsResolvedStyle | src/commonMain/kotlin/net/orandja/kt/stylized/Stylized.kt:23-31 | For a non-empty path, `get` reads the resolved node's value or group as it is |
| Stylized.GetAgreesWithGetOrNull | src/commonMain/kotlin/net/orandja/kt/stylized/Stylized.kt:23-37 | `get` and `getOrNull` give the same value; a path that does not resolve is ReferenceNotFound for `get` and null for `getOrNull` |
| Stylized.GetDependsOnlyOnSegments | src/commonMain/kotlin/net/orandja/kt/stylized/Stylized.kt:23-26 | Arguments denoting the same segments read the same value, whether given as references, strings, dotted strings or arrays |
| Stylized.ValueOfMoreFuel | src/commonMain/kotlin/net/orandja/kt/stylized/Stylized.kt:39-43 | The value resolver gives the same outcome with more fuel, unless it ran out |
| Stylized.GetMoreFuel | src/commonMain/kotlin/net/orandja/kt/stylized/Stylized.kt:23-31 | `Style.get(*args)` gives the same outcome with more fuel, unless it ran out |
| GroupBuilder.NewBuilder | src/commonMain/kotlin/net/orandja/kt/stylized/dsl/StyleGroupBuilder.kt:10-12 | A new builder has no entries and keeps the parent style it was given |
| GroupBuilder.Add | src/commonMain/kotlin/net/orandja/kt/stylized/dsl/StyleGroupBuilder.kt:14-16 | After `add`, the name holds the new style, the other entries and the parent are unchanged, and no other key appears |
| GroupBuilder.AddLastWriteWins | src/commonMain/kotlin/net/orandja/kt/stylized/dsl/StyleGroupBuilder.kt:14-16 | A second `add` of a name replaces the first; adds of different names commute |
| GroupBuilder.AssertName | src/commonMain/kotlin/net/orandja/kt/stylized/dsl/StyleGroupBuilder.kt:52-59 | A reference name is accepted exactly when it sanitizes to one segment, which is returned; no segment gives the no-name error, two or more the multi-segment error |
| GroupBuilder.AssertedNameIsSegment | src/commonMain/kotlin/net/orandja/kt/stylized/dsl/StyleGroupBuilder.kt:52-59 | The accepted name, as a path, designates exactly the reference's own path |
| GroupBuilder.AddReference | src/commonMain/kotlin/net/orandja/kt/stylized/dsl/StyleGroupBuilder.kt:18-24 | `add(reference)` and the unary `+` store the reference itself under its asserted name, and fail exactly when the name is rejected |
| GroupBuilder.StoredStyle | src/commonMain/kotlin/net/orandja/kt/stylized/dsl/StyleGroupBuilder.kt:61-64 | A reference to be stored becomes a self reference; other styles are kept; any other value becomes a value style |
| GroupBuilder.StoredReferenceFollowsName | src/commonMain/kotlin/net/orandja/kt/stylized/dsl/StyleGroupBuilder.kt:61-64 | A stored reference is looked up where it is used, by the segments of its name |
| GroupBuilder.SetByReference | src/commonMain/kotlin/net/orandja/kt/stylized/dsl/StyleGroupBuilder.kt:26-30 | `reference set value` stores the converted value under the asserted name, and fails exactly when the name is rejected |
| GroupBuilder.SetByName | src/commonMain/kotlin/net/orandja/kt/stylized/dsl/StyleGroupBuilder.kt:32-36 | `"key" set value` stores the converted value under the string as given, unsanitized; the other entries and the parent are kept, and no other key appears |
| GroupBuilder.Build | src/commonMain/kotlin/net/orandja/kt/stylized/dsl/StyleGroupBuilder.kt:38-48 | No entries give Empty, one gives Single, two or more give Multi; the parent style is passed on |
| GroupBuilder.BuildIsRepresentationIndependent | src/commonMain/kotlin/net/orandja/kt/stylized/dsl/StyleGroupBuilder.kt:38-48 | Whichever representation is built, its keys are the builder's keys, and every key gets its entry if present, else the parent style's answer |
| ReadmeExample.AttributeValues | src/commonTest/kotlin/net/orandja/kt/stylized/ReadmeExample.kt:18-20 | `blue.get()` and `colorPrimary.get()` are both BLUE |
| ReadmeExample.ColorsAsBuilt | src/commonTest/kotlin/net/orandja/kt/stylized/ReadmeExample.kt:23-28 | The `colors` block, run through the builder, gives the `colors` group the lookups use |
| ReadmeExample.ColorsWhite | src/commonTest/kotlin/net/orandja/kt/stylized/ReadmeExample.kt:32-34 | colors[white] is WHITE |
| ReadmeExample.ColorsBlue | src/commonTest/kotlin/net/orandja/kt/stylized/ReadmeExample.kt:35 | colors[blue] is BLUE |
| ReadmeExample.ColorsGreen | src/commonTest/kotlin/net/orandja/kt/stylized/ReadmeExample.kt:36-40 | colors["green"] and colors[green] are GREEN |
| ReadmeExample.ColorsExample | src/commonTest/kotlin/net/orandja/kt/stylized/ReadmeExample.kt:37 | colors["example"] is BLUE |
| ReadmeExample.LightAsBuilt | src/commonTest/kotlin/net/orandja/kt/stylized/ReadmeExample.kt:43-54 | The `lightTheme` block, run through the builder, gives the `lightTheme` group the lookups use |
| ReadmeExample.PrimaryDereferenced | src/commonTest/kotlin/net/orandja/kt/stylized/ReadmeExample.kt:53 | `colorPrimary.dereference()` is the value BLUE |
| ReadmeExample.Example2IsDereferenced | src/commonTest/kotlin/net/orandja/kt/stylized/ReadmeExample.kt:53 | What lightTheme stores under "example2" is colorPrimary dereferenced |
| ReadmeExample.LightThemeGreen | src/commonTest/kotlin/net/orandja/kt/stylized/ReadmeExample.kt:57 | lightTheme[green] is GREEN, found in the parent style |
| ReadmeExample.LightThemeBackground | src/commonTest/kotlin/net/orandja/kt/stylized/ReadmeExample.kt:58 | lightTheme[colorBackground] is WHITE |
| ReadmeExample.LightThemeExample1 | src/commonTest/kotlin/net/orandja/kt/stylized/ReadmeExample.kt:59 | lightTheme["example1"] is GREEN, because colorPrimary is looked up inside lightTheme |
| ReadmeExample.LightThemeExample2 | src/commonTest/kotlin/net/orandja/kt/stylized/ReadmeExample.kt:60 | lightTheme["example2"] is BLUE |
| ReadmeExample.LightThemeAnyFuel | src/commonTest/kotlin/net/orandja/kt/stylized/ReadmeExample.kt:57-60 | The four lightTheme answers hold with any fuel from four up |
| ReadmeExample.TextAsBuilt | src/commonTest/kotlin/net/orandja/kt/stylized/ReadmeExample.kt:94-101 | The nested text-style block, run through the builder, gives the text group the lookups use |
| ReadmeExample.ButtonAsBuilt | src/commonTest/kotlin/net/orandja/kt/stylized/ReadmeExample.kt:85-102 | The `buttonStyle` block, run through the builder, gives the `buttonStyle` group the lookups use |
| ReadmeExample.ButtonStyleColorPrimary | src/commonTest/kotlin/net/orandja/kt/stylized/ReadmeExample.kt:104 | buttonStyle[colors, colorPrimary] is GREEN |
| ReadmeExample.ButtonStyleColorsBlue | src/commonTest/kotlin/net/orandja/kt/stylized/ReadmeExample.kt:105 | buttonStyle[colors, blue] is BLUE |
| ReadmeExample.ButtonStyleH1 | src/commonTest/kotlin/net/orandja/kt/stylized/ReadmeExample.kt:106 | buttonStyle[textStyle, "h1TextColor"] is GREEN, through first-segment fallback from inside the nested group |
| ReadmeExample.ButtonStyleH2 | src/commonTest/kotlin/net/orandja/kt/stylized/ReadmeExample.kt:107 | buttonStyle[textStyle, "h2TextColor"] is BLUE |
| ReadmeExample.ButtonStyleAnyFuel | src/commonTest/kotlin/net/orandja/kt/stylized/ReadmeExample.kt:104-107 | The four buttonStyle answers hold with any fuel from four up |
| ResolveExample.ResolveA | src/commonMain/kotlin/net/orandja/kt/stylized/Style.kt:84-87 | In the documented `foo@{ a: bar@{ b: 1, c: 2 }, c: 3, d: 4 }`, `[a]` resolves to the node of bar from both foo and bar, for any fuel |
| ResolveExample.ResolveAB | src/commonMain/kotlin/net/orandja/kt/stylized/Style.kt:84-86 | `[a, b]` resolves to the value 1 below bar from both foo and bar |
| ResolveExample.ResolveB | src/commonMain/kotlin/net/orandja/kt/stylized/Style.kt:89-90 | `[b]` resolves to nothing from foo and to the value 1 from bar |
| ResolveExample.ResolveC | src/commonMain/kotlin/net/orandja/kt/stylized/Style.kt:92-93 | `[c]` resolves to 3 from foo and to 2 from bar: the nearest holder wins |
| ResolveExample.ResolveD | src/commonMain/kotlin/net/orandja/kt/stylized/Style.kt:95 | `[d]` resolves to 4, held by foo, from both foo and bar |

## Left out

- CallableReference and `attr { }` with a callback: they run arbitrary user code on a node. In the README example, `colorBackground` is only used through its name, so a named reference carrying that name stands in for it.
- Resolution.RefGet: has no CallableReference case (see above).
- Styles.NodeEqualsIff: a `SelfReference` is compared structurally, but the original compares it by identity. Two distinct but identical self references are equal in the model and unequal in the original.
- The lazy property delegates, `attr`/`style` delegates and `StyleReadOnlyProperty`, including the check in `set` that rejects them. They memoise over Kotlin reflection. The naming they do is `sanitize` followed by a dotted join, which is modelled.
- Unchecked casts, `as? T`, and the `ClassCastException` that `Style.get(path)` turns into ReferenceNotFound. Payloads are opaque strings, so no read has the wrong type.
- `Style.getOrNull()` without a path is not modelled separately: it differs from `Style.get()` only by that cast.
- `toString`, `hashCode` and the messages of the exception classes. The exceptions are error cases of `Outcome` (ReferenceNotFound) and `Checked` (InvalidName).
- The top-level forwarding functions in Stylized.kt: they only delegate to the builder.
- The `Visitor`/`accept` double dispatch: it is replaced by pattern matching on the style kind.
- Termination on cyclic self references: the original does not terminate (it overflows its stack). The model stops with `OutOfFuel` when the fuel runs out.
- The insertion order of the builder's `LinkedHashMap`: it is visible only to `toString`, to `values.entries.first()` on a one-entry map, where it does not matter, and to iteration of `Multi.keys()`, which the engine never does.
- `extractStrings` on iterables, collections and lists: they are folded into one "array of arguments" case, since each contributes its elements in order.
- `extractStrings` on an iterator: it drains the iterator. A self reference built with an iterator argument therefore finds its path on the first `get` or `name()` and an empty path on every later one. The model's array case can be read any number of times, so this is not modelled.
- `extractStrings` on a Kotlin `Sequence` or any other object: there is no branch for sequences, so they fall through to `toString()`, like any other object. This is modelled as a string argument carrying the text `toString` would give.
- Kotlin's `Char.isWhitespace`: modelled as the fixed set of characters the JVM treats as whitespace.
