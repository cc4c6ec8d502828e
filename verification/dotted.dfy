/**
  Dotted paths. Every path handed to the resolution engine is a list of
  segment names; callers write them as dotted strings such as "colors.primary".
  This module holds the tokenizer that turns one dotted string into segments,
  the sanitizer that tokenizes a list of raw strings and flattens the result,
  and the joiner that glues segments back together with single dots.

  The tokenizer is given twice: `Tokens` is the declarative meaning
  (split on '.', trim each piece, drop the blank pieces) and
  `TokenizeDottedString` is the character-by-character scan of the original
  code, proved to compute exactly `Tokens`.
*/
module Dotted {

  /** Whitespace as Kotlin's `Char.isWhitespace` sees it on the JVM: the
      ASCII controls TAB..CR and FS..US, plus every Unicode space, line and
      paragraph separator (the no-break spaces included). Never true of '.'. */
  predicate IsWhitespace(c: char) {
    || ('\t' <= c <= '\r')
    || ('\U{1C}' <= c <= '\U{1F}')
    || c == ' '
    || c == '\U{A0}'
    || c == '\U{1680}'
    || ('\U{2000}' <= c <= '\U{200A}')
    || c == '\U{2028}'
    || c == '\U{2029}'
    || c == '\U{202F}'
    || c == '\U{205F}'
    || c == '\U{3000}'
  }

  predicate AllWhitespace(s: string) {
    forall i | 0 <= i < |s| :: IsWhitespace(s[i])
  }

  /** Made only of dots and whitespace: the strings that carry no segment. */
  predicate AllSeparators(s: string) {
    forall i | 0 <= i < |s| :: s[i] == '.' || IsWhitespace(s[i])
  }

  predicate DotFree(s: string) {
    forall i | 0 <= i < |s| :: s[i] != '.'
  }

  /** A well-formed path segment: non-empty, dot-free, trimmed. */
  predicate IsToken(t: string) {
    && |t| > 0
    && DotFree(t)
    && !IsWhitespace(t[0])
    && !IsWhitespace(t[|t| - 1])
  }

  predicate AllTokens(ts: seq<string>) {
    forall i | 0 <= i < |ts| :: IsToken(ts[i])
  }

  // ---------------------------------------------------------------------
  // The declarative tokenizer: split, trim, keep the non-blank pieces
  // ---------------------------------------------------------------------

  /** The pieces of `s` between dots, empty pieces included: n dots give
      n + 1 pieces. */
  function Split(s: string): (pieces: seq<string>)
    ensures |pieces| >= 1
  {
    if |s| == 0 then [""]
    else
      var rest := Split(s[1..]);
      if s[0] == '.' then [""] + rest
      else [[s[0]] + rest[0]] + rest[1..]
  }

  /** Drops leading whitespace. */
  function TrimStart(s: string): string {
    if |s| > 0 && IsWhitespace(s[0]) then TrimStart(s[1..]) else s
  }

  /** Drops trailing whitespace. */
  function TrimEnd(s: string): string {
    if |s| > 0 && IsWhitespace(s[|s| - 1]) then TrimEnd(s[..|s| - 1]) else s
  }

  /** Kotlin's `trim()`: whitespace stripped from both ends. */
  function Trim(s: string): string {
    TrimEnd(TrimStart(s))
  }

  /** Every piece trimmed, in place. */
  function TrimAll(pieces: seq<string>): seq<string> {
    if |pieces| == 0 then [] else [Trim(pieces[0])] + TrimAll(pieces[1..])
  }

  /** Keeps the non-empty strings, in order. */
  function Keep(pieces: seq<string>): seq<string> {
    if |pieces| == 0 then []
    else (if pieces[0] == "" then [] else [pieces[0]]) + Keep(pieces[1..])
  }

  /** The segments of a dotted string: split on '.', trim every piece,
      drop the pieces that are left empty, keep input order. */
  function Tokens(s: string): seq<string> {
    Keep(TrimAll(Split(s)))
  }

  /** The token a dot-free piece contributes: its trimmed text, or nothing. */
  function Word(piece: string): seq<string> {
    Keep([Trim(piece)])
  }

  // ---------------------------------------------------------------------
  // The scanning tokenizer of the original code
  // ---------------------------------------------------------------------

  /** Kotlin `tokenizeDottedString`: first skips the leading run of dots and
      whitespace, then scans once, remembering where the current word starts
      and ends; a dot closes the word, whitespace only extends nothing. */
  method TokenizeDottedString(str: string) returns (tokens: seq<string>)
    ensures tokens == Tokens(str)
    ensures AllTokens(tokens)
  {
    TokensWellFormed(str);
    if |str| == 0 {
      assert Split(str) == [""];
      return [];
    }
    var index;
    ghost var pieceStart;
    index, pieceStart := SkipSeparators(str);
    if index == |str| {
      FinishPiece(str, pieceStart, -1, 0);
      return [];
    }
    tokens := ScanWords(str, index, pieceStart);
  }

  /** The main loop of the original code, entered at `start` with no word
      pending and no token produced for str[..pieceStart0]. */
  method ScanWords(str: string, start: nat, ghost pieceStart0: nat) returns (tokens: seq<string>)
    requires pieceStart0 <= start <= |str|
    requires pieceStart0 == 0 || str[pieceStart0 - 1] == '.'
    requires forall j | pieceStart0 <= j < start :: str[j] != '.' && IsWhitespace(str[j])
    requires Tokens(str[..pieceStart0]) == []
    ensures tokens == Tokens(str)
  {
    tokens := [];
    var index := start;
    ghost var pieceStart := pieceStart0;
    var wordStart := -1;
    var wordEnd := 0;
    while index < |str|
      invariant Scanning(str, tokens, pieceStart, wordStart, wordEnd, index)
    {
      if str[index] == '.' {
        ClosePiece(str, pieceStart, wordStart, wordEnd, index);
        if wordStart != -1 {
          tokens := tokens + [str[wordStart..wordEnd]];
        }
        wordStart := -1;
        pieceStart := index + 1;
      } else {
        ScanInsideWord(str, tokens, pieceStart, wordStart, wordEnd, index);
        if !IsWhitespace(str[index]) {
          if wordStart == -1 {
            wordStart := index;
          }
          wordEnd := index + 1;
        }
      }
      index := index + 1;
    }
    FinishPiece(str, pieceStart, wordStart, wordEnd);
    if wordStart != -1 {
      tokens := tokens + [str[wordStart..wordEnd]];
    }
  }

  /** The main loop's invariant: tokens holds the tokens of the pieces
      already closed, and the open piece str[pieceStart..index] is blank
      (no word pending) or a padded word. */
  ghost predicate Scanning(str: string, tokens: seq<string>, pieceStart: int, wordStart: int, wordEnd: int, index: int) {
    && 0 <= pieceStart <= index <= |str|
    && (pieceStart == 0 || str[pieceStart - 1] == '.')
    && (forall j | pieceStart <= j < index :: str[j] != '.')
    && tokens == Tokens(str[..pieceStart])
    && (wordStart == -1 ==> forall j | pieceStart <= j < index :: IsWhitespace(str[j]))
    && (wordStart != -1 ==> PaddedWord(str, pieceStart, wordStart, wordEnd, index))
  }

  /** A character other than a dot extends the open piece: a non-whitespace
      one starts or extends the word, whitespace extends the padding. */
  lemma ScanInsideWord(str: string, tokens: seq<string>, pieceStart: int, wordStart: int, wordEnd: int, index: int)
    requires Scanning(str, tokens, pieceStart, wordStart, wordEnd, index)
    requires index < |str| && str[index] != '.'
    ensures var ws := if !IsWhitespace(str[index]) && wordStart == -1 then index else wordStart;
      var we := if !IsWhitespace(str[index]) then index + 1 else wordEnd;
      Scanning(str, tokens, pieceStart, ws, we, index + 1)
  {
    if !IsWhitespace(str[index]) {
      assert str[index + 1..index + 1] == [];
      if wordStart == -1 {
        assert AllWhitespace(str[pieceStart..index]);
      } else {
        assert AllWhitespace(str[wordEnd..index]);
        assert AllWhitespace(str[pieceStart..wordStart]);
      }
    } else if wordStart != -1 {
      assert str[wordEnd..index + 1] == str[wordEnd..index] + [str[index]];
    }
  }

  /** The leading loop of the original code: skips the run of dots and
      whitespace at the start of the input; `pieceStart` is one past the
      last dot skipped. */
  method SkipSeparators(str: string) returns (index: nat, ghost pieceStart: nat)
    ensures pieceStart <= index <= |str|
    ensures index == |str| || (str[index] != '.' && !IsWhitespace(str[index]))
    ensures AllSeparators(str[..index])
    ensures pieceStart == 0 || str[pieceStart - 1] == '.'
    ensures forall j | pieceStart <= j < index :: str[j] != '.' && IsWhitespace(str[j])
    ensures Tokens(str[..pieceStart]) == []
  {
    index := 0;
    pieceStart := 0;
    while index < |str| && (str[index] == '.' || IsWhitespace(str[index]))
      invariant pieceStart <= index <= |str|
      invariant AllSeparators(str[..index])
      invariant pieceStart == 0 || str[pieceStart - 1] == '.'
      invariant forall j | pieceStart <= j < index :: str[j] != '.' && IsWhitespace(str[j])
      invariant Tokens(str[..pieceStart]) == []
    {
      if str[index] == '.' {
        ClosePiece(str, pieceStart, -1, 0, index);
        pieceStart := index + 1;
      }
      index := index + 1;
    }
  }

  /** A dot at `index` closes the piece str[pieceStart..index]: the tokens
      of the prefix up to and including the dot are those before the piece
      plus the piece's word. */
  lemma ClosePiece(str: string, pieceStart: int, wordStart: int, wordEnd: int, index: int)
    requires 0 <= pieceStart <= index < |str| && str[index] == '.'
    requires pieceStart == 0 || str[pieceStart - 1] == '.'
    requires forall j | pieceStart <= j < index :: str[j] != '.'
    requires wordStart == -1 ==> forall j | pieceStart <= j < index :: IsWhitespace(str[j])
    requires wordStart != -1 ==> PaddedWord(str, pieceStart, wordStart, wordEnd, index)
    ensures Tokens(str[..index + 1]) == Tokens(str[..pieceStart])
      + (if wordStart == -1 then [] else [str[wordStart..wordEnd]])
  {
    var a, cur := str[..pieceStart], str[pieceStart..index];
    assert str[..index + 1] == a + cur + ".";
    assert Word(cur) == if wordStart == -1 then [] else [str[wordStart..wordEnd]] by {
      PendingWord(str, pieceStart, wordStart, wordEnd, index);
    }
    assert Tokens(a + cur + ".") == Tokens(a) + Word(cur) by {
      TokensAfterClosedPiece(a, cur);
    }
  }

  /** The end of the input closes the last piece like a dot would. */
  lemma FinishPiece(str: string, pieceStart: int, wordStart: int, wordEnd: int)
    requires 0 <= pieceStart <= |str|
    requires pieceStart == 0 || str[pieceStart - 1] == '.'
    requires forall j | pieceStart <= j < |str| :: str[j] != '.'
    requires wordStart == -1 ==> forall j | pieceStart <= j < |str| :: IsWhitespace(str[j])
    requires wordStart != -1 ==> PaddedWord(str, pieceStart, wordStart, wordEnd, |str|)
    ensures Tokens(str) == Tokens(str[..pieceStart])
      + (if wordStart == -1 then [] else [str[wordStart..wordEnd]])
  {
    PendingWord(str, pieceStart, wordStart, wordEnd, |str|);
    assert str[pieceStart..|str|] == str[pieceStart..];
    TokensAfterPiece(str[..pieceStart], str[pieceStart..]);
    assert str == str[..pieceStart] + str[pieceStart..];
  }

  /** The scanner's picture of the piece str[pieceStart..index]: whitespace,
      then the word str[wordStart..wordEnd] (first and last characters not
      whitespace), then whitespace. */
  ghost predicate PaddedWord(str: string, pieceStart: int, wordStart: int, wordEnd: int, index: int) {
    && 0 <= pieceStart <= wordStart < wordEnd <= index <= |str|
    && AllWhitespace(str[pieceStart..wordStart])
    && !IsWhitespace(str[wordStart])
    && !IsWhitespace(str[wordEnd - 1])
    && AllWhitespace(str[wordEnd..index])
  }

  lemma PendingWord(str: string, pieceStart: int, wordStart: int, wordEnd: int, index: int)
    requires 0 <= pieceStart <= index <= |str|
    requires wordStart == -1 ==> forall j | pieceStart <= j < index :: IsWhitespace(str[j])
    requires wordStart != -1 ==> PaddedWord(str, pieceStart, wordStart, wordEnd, index)
    ensures Word(str[pieceStart..index]) == if wordStart == -1 then [] else [str[wordStart..wordEnd]]
  {
    if wordStart == -1 {
      BlankPiece(str[pieceStart..index]);
    } else {
      var core := str[wordStart..wordEnd];
      assert str[pieceStart..index] == str[pieceStart..wordStart] + core + str[wordEnd..index];
      TrimPadded(str[pieceStart..wordStart], core, str[wordEnd..index]);
      KeepOne(core);
    }
  }

  lemma BlankPiece(w: string)
    requires AllWhitespace(w)
    ensures Trim(w) == "" && Word(w) == []
  {
    TrimFacts(w);
    assert [""][1..] == [];
  }

  /** Every token is non-empty, dot-free and trimmed. */
  lemma TokensWellFormed(s: string)
    ensures AllTokens(Tokens(s))
  {
    var pieces := Split(s);
    var r := Keep(TrimAll(pieces));
    SplitPiecesDotFree(s);
    KeepFacts(TrimAll(pieces));
    TrimAllAt(pieces);
    forall k | 0 <= k < |r| ensures IsToken(r[k]) {
      assert r[k] in r;
      var i :| 0 <= i < |pieces| && TrimAll(pieces)[i] == r[k];
      TrimFacts(pieces[i]);
    }
  }

  // ---------------------------------------------------------------------
  // Lemmas about the declarative tokenizer
  // ---------------------------------------------------------------------

  /** TrimStart removes a whitespace prefix and stops at the first
      non-whitespace character. */
  lemma {:induction false} TrimStartSpec(s: string)
    ensures var r := TrimStart(s);
      && |r| <= |s| && r == s[|s| - |r|..]
      && AllWhitespace(s[..|s| - |r|])
      && (r == "" || !IsWhitespace(r[0]))
  {
    if |s| > 0 && IsWhitespace(s[0]) {
      TrimStartSpec(s[1..]);
      var r := TrimStart(s);
      assert s[..|s| - |r|] == [s[0]] + s[1..][..|s| - 1 - |r|];
    }
  }

  /** TrimEnd removes a whitespace suffix and stops at the last
      non-whitespace character. */
  lemma {:induction false} TrimEndSpec(s: string)
    ensures var r := TrimEnd(s);
      && |r| <= |s| && r == s[..|r|]
      && AllWhitespace(s[|r|..])
      && (r == "" || !IsWhitespace(r[|r| - 1]))
  {
    if |s| > 0 && IsWhitespace(s[|s| - 1]) {
      var s' := s[..|s| - 1];
      TrimEndSpec(s');
      var r := TrimEnd(s);
      assert s[|r|..] == s'[|r|..] + [s[|s| - 1]];
    }
  }

  /** What trimming keeps: both ends are non-whitespace, a dot-free string
      stays dot-free, and the result is empty exactly when the string was
      blank. */
  lemma TrimFacts(s: string)
    ensures var r := Trim(s); r == "" || (!IsWhitespace(r[0]) && !IsWhitespace(r[|r| - 1]))
    ensures DotFree(s) ==> DotFree(Trim(s))
    ensures Trim(s) == "" <==> AllWhitespace(s)
  {
    var l := TrimStart(s);
    var r := TrimEnd(l);
    TrimStartSpec(s);
    TrimEndSpec(l);
    assert forall i | 0 <= i < |r| :: r[i] == s[|s| - |l| + i];
    if r == "" {
      assert s == s[..|s| - |l|] + l;
    }
  }

  /** Each trimmed piece is its own piece trimmed. */
  lemma {:induction false} TrimAllAt(pieces: seq<string>)
    ensures |TrimAll(pieces)| == |pieces|
    ensures forall i | 0 <= i < |pieces| :: TrimAll(pieces)[i] == Trim(pieces[i])
  {
    if |pieces| > 0 {
      TrimAllAt(pieces[1..]);
    }
  }

  lemma {:induction false} SplitPiecesDotFree(s: string)
    ensures forall i | 0 <= i < |Split(s)| :: DotFree(Split(s)[i])
  {
    if |s| > 0 {
      SplitPiecesDotFree(s[1..]);
    }
  }

  lemma {:induction false} SplitOfSeparators(s: string)
    requires AllSeparators(s)
    ensures forall i | 0 <= i < |Split(s)| :: AllWhitespace(Split(s)[i])
  {
    if |s| > 0 {
      SplitOfSeparators(s[1..]);
    }
  }

  /** A string ending with a dot ends with an empty piece. */
  lemma {:induction false} SplitEndsWithDot(s: string)
    requires |s| > 0 && s[|s| - 1] == '.'
    ensures |Split(s)| >= 2 && Split(s)[|Split(s)| - 1] == ""
  {
    if |s| > 1 {
      assert s[1..][|s| - 2] == s[|s| - 1];
      SplitEndsWithDot(s[1..]);
    }
  }

  lemma {:induction false} KeepFacts(ps: seq<string>)
    ensures forall t | t in Keep(ps) :: t != "" && t in ps
    ensures forall i | 0 <= i < |ps| && ps[i] != "" :: ps[i] in Keep(ps)
  {
    if |ps| > 0 {
      KeepFacts(ps[1..]);
    }
  }

  lemma {:induction false} SplitDotFree(x: string)
    requires DotFree(x)
    ensures Split(x) == [x]
  {
    if |x| > 0 {
      SplitDotFree(x[1..]);
      assert [x[0]] + x[1..] == x;
    }
  }

  /** A dot right after a dot-free prefix closes exactly that prefix. */
  lemma {:induction false} SplitDotThen(x: string, y: string)
    requires DotFree(x)
    ensures Split(x + "." + y) == [x] + Split(y)
  {
    if |x| == 0 {
      assert x + "." + y == "." + y;
      assert ("." + y)[1..] == y;
    } else {
      assert (x + "." + y)[1..] == x[1..] + "." + y;
      SplitDotThen(x[1..], y);
      assert [x[0]] + x[1..] == x;
    }
  }

  /** Splitting after a piece boundary (the empty string, or a string ending
      with a dot) just continues the list of pieces. */
  lemma {:induction false} SplitAfterBoundary(a: string, c: string)
    requires a == "" || a[|a| - 1] == '.'
    ensures var sa := Split(a); Split(a + c) == sa[..|sa| - 1] + Split(c)
  {
    if |a| > 0 {
      var a' := a[1..];
      assert (a + c)[1..] == a' + c;
      assert |a'| > 0 ==> a'[|a'| - 1] == a[|a| - 1];
      SplitAfterBoundary(a', c);
      if a[0] == '.' {
        DotPieceSlices(Split(a'), Split(c));
      } else {
        SplitEndsWithDot(a');
        FirstPieceSlices([a[0]], Split(a'), Split(c));
      }
    } else {
      assert a + c == c;
    }
  }

  /** Dropping the last piece commutes with a leading empty piece. */
  lemma DotPieceSlices(sa: seq<string>, sc: seq<string>)
    requires |sa| >= 1
    ensures ([""] + sa)[..|sa|] + sc == [""] + (sa[..|sa| - 1] + sc)
  {
    assert ([""] + sa)[..|sa|] == [""] + sa[..|sa| - 1];
  }

  /** Dropping the last piece commutes with extending the first one, when
      there are at least two pieces. */
  lemma FirstPieceSlices(p: string, sa: seq<string>, sc: seq<string>)
    requires |sa| >= 2
    ensures var full := sa[..|sa| - 1] + sc;
      ([p + sa[0]] + sa[1..])[..|sa| - 1] + sc == [p + full[0]] + full[1..]
  {
    var full := sa[..|sa| - 1] + sc;
    assert full[0] == sa[0];
    assert full[1..] == sa[1..|sa| - 1] + sc;
    assert ([p + sa[0]] + sa[1..])[..|sa| - 1] == [p + sa[0]] + sa[1..|sa| - 1];
  }

  lemma {:induction false} KeepConcat(x: seq<string>, y: seq<string>)
    ensures Keep(x + y) == Keep(x) + Keep(y)
  {
    if |x| > 0 {
      assert (x + y)[1..] == x[1..] + y;
      KeepConcat(x[1..], y);
    } else {
      assert x + y == y;
    }
  }

  lemma {:induction false} TrimAllConcat(x: seq<string>, y: seq<string>)
    ensures TrimAll(x + y) == TrimAll(x) + TrimAll(y)
  {
    if |x| > 0 {
      assert (x + y)[1..] == x[1..] + y;
      TrimAllConcat(x[1..], y);
    } else {
      assert x + y == y;
    }
  }

  lemma TokensConcat(x: seq<string>, y: seq<string>)
    ensures Keep(TrimAll(x + y)) == Keep(TrimAll(x)) + Keep(TrimAll(y))
  {
    TrimAllConcat(x, y);
    KeepConcat(TrimAll(x), TrimAll(y));
  }

  /** The tokens of a string that ends at a piece boundary (empty, or
      ending with a dot) are those of its complete pieces. */
  lemma TokensAtBoundary(a: string)
    requires a == "" || a[|a| - 1] == '.'
    ensures var sa := Split(a); Tokens(a) == Keep(TrimAll(sa[..|sa| - 1]))
  {
    var sa := Split(a);
    var init := sa[..|sa| - 1];
    if a != "" {
      SplitEndsWithDot(a);
    }
    assert sa == init + [""];
    TokensConcat(init, [""]);
    assert TrimAll([""]) == [""];
    assert [""][1..] == [];
  }

  /** Appending one dot-free piece to a string that ends at a piece
      boundary adds exactly that piece's word. */
  lemma TokensAfterPiece(a: string, cur: string)
    requires a == "" || a[|a| - 1] == '.'
    requires DotFree(cur)
    ensures Tokens(a + cur) == Tokens(a) + Word(cur)
  {
    var sa := Split(a);
    var init := sa[..|sa| - 1];
    assert Tokens(a) == Keep(TrimAll(init)) by { TokensAtBoundary(a); }
    assert Split(a + cur) == init + [cur] by {
      SplitDotFree(cur);
      SplitAfterBoundary(a, cur);
    }
    assert Keep(TrimAll(init + [cur])) == Keep(TrimAll(init)) + Keep(TrimAll([cur])) by {
      TokensConcat(init, [cur]);
    }
    assert TrimAll([cur]) == [Trim(cur)];
  }

  /** A trailing dot only adds an empty last piece. */
  lemma {:induction false} SplitTrailingDot(x: string)
    ensures Split(x + ".") == Split(x) + [""]
  {
    if |x| == 0 {
      assert x + "." == ".";
    } else {
      assert (x + ".")[1..] == x[1..] + ".";
      SplitTrailingDot(x[1..]);
    }
  }

  /** A trailing dot never changes the tokens. */
  lemma TokensTrailingDot(x: string)
    ensures Tokens(x + ".") == Tokens(x)
  {
    assert Split(x + ".") == Split(x) + [""] by { SplitTrailingDot(x); }
    assert Keep(TrimAll(Split(x) + [""])) == Keep(TrimAll(Split(x))) + Keep(TrimAll([""])) by {
      TokensConcat(Split(x), [""]);
    }
    assert TrimAll([""]) == [""];
    assert [""][1..] == [];
  }

  /** ... so closing that piece with a dot adds nothing more. */
  lemma TokensAfterClosedPiece(a: string, cur: string)
    requires a == "" || a[|a| - 1] == '.'
    requires DotFree(cur)
    ensures Tokens(a + cur + ".") == Tokens(a) + Word(cur)
  {
    TokensAfterPiece(a, cur);
    TokensTrailingDot(a + cur);
  }

  lemma {:induction false} TrimStartSkips(w: string, x: string)
    requires AllWhitespace(w)
    ensures TrimStart(w + x) == TrimStart(x)
  {
    if |w| > 0 {
      assert (w + x)[1..] == w[1..] + x;
      TrimStartSkips(w[1..], x);
    } else {
      assert w + x == x;
    }
  }

  lemma {:induction false} TrimEndSkips(x: string, w: string)
    requires AllWhitespace(w)
    ensures TrimEnd(x + w) == TrimEnd(x)
  {
    if |w| > 0 {
      var w' := w[..|w| - 1];
      assert (x + w)[..|x + w| - 1] == x + w';
      TrimEndSkips(x, w');
    } else {
      assert x + w == x;
    }
  }

  /** Trimming whitespace-word-whitespace leaves exactly the word. */
  lemma TrimPadded(w1: string, core: string, w2: string)
    requires AllWhitespace(w1) && AllWhitespace(w2)
    requires |core| > 0 && !IsWhitespace(core[0]) && !IsWhitespace(core[|core| - 1])
    ensures Trim(w1 + core + w2) == core
  {
    assert w1 + core + w2 == w1 + (core + w2);
    TrimStartSkips(w1, core + w2);
    assert TrimStart(core + w2) == core + w2;
    TrimEndSkips(core, w2);
  }

  lemma TrimToken(t: string)
    requires IsToken(t)
    ensures Trim(t) == t
  {
    TrimPadded("", t, "");
    assert "" + t + "" == t;
  }

  /** Every token is a fixed point of the tokenizer. */
  lemma TokenIsFixed(t: string)
    requires IsToken(t)
    ensures Tokens(t) == [t]
  {
    SplitDotFree(t);
    TrimToken(t);
    TrimAllAt([t]);
    assert TrimAll([t]) == [t];
    KeepOne(t);
  }

  /** The tokenizer yields nothing exactly when the input is made only of
      dots and whitespace (the empty string included). */
  lemma TokensEmptyIff(s: string)
    ensures Tokens(s) == [] <==> AllSeparators(s)
  {
    var pieces := Split(s);
    KeepFacts(TrimAll(pieces));
    TrimAllAt(pieces);
    if AllSeparators(s) {
      SplitOfSeparators(s);
      forall i | 0 <= i < |pieces| ensures TrimAll(pieces)[i] == "" {
        TrimFacts(pieces[i]);
      }
      KeepBlank(TrimAll(pieces));
    } else if Tokens(s) == [] {
      forall i | 0 <= i < |pieces| ensures AllWhitespace(pieces[i]) {
        TrimFacts(pieces[i]);
        assert TrimAll(pieces)[i] !in Keep(TrimAll(pieces));
      }
      JoinSplit(s);
      JoinBlank(pieces);
    }
  }

  /** Joining blank pieces gives only dots and whitespace. */
  lemma {:induction false} JoinBlank(xs: seq<string>)
    requires forall i | 0 <= i < |xs| :: AllWhitespace(xs[i])
    ensures AllSeparators(Join(xs))
  {
    if |xs| > 1 {
      JoinBlank(xs[1..]);
      var j := Join(xs[1..]);
      assert Join(xs) == xs[0] + "." + j;
      assert forall i | 0 <= i < |xs[0]| :: Join(xs)[i] == xs[0][i];
      assert forall i | |xs[0]| < i < |Join(xs)| :: Join(xs)[i] == j[i - |xs[0]| - 1];
    }
  }

  // ---------------------------------------------------------------------
  // Joining and sanitizing
  // ---------------------------------------------------------------------

  /** Kotlin `joinAsDottedString`: the elements separated by single dots,
      without a trailing dot; "" for no elements. */
  function Join(xs: seq<string>): string {
    if |xs| == 0 then ""
    else if |xs| == 1 then xs[0]
    else xs[0] + "." + Join(xs[1..])
  }

  /** The StringBuilder loop of the original code: append every element and
      a dot, then cut the last dot off. */
  method JoinAsDottedString(xs: seq<string>) returns (r: string)
    ensures r == Join(xs)
  {
    if |xs| == 0 {
      return "";
    }
    var sb := "";
    var i := 0;
    while i < |xs|
      invariant 0 <= i <= |xs|
      invariant i == 0 ==> sb == ""
      invariant i > 0 ==> sb == Join(xs[..i]) + "."
    {
      if i > 0 {
        JoinSnoc(xs[..i + 1]);
        assert xs[..i + 1][..i] == xs[..i];
      }
      sb := sb + xs[i] + ".";
      i := i + 1;
    }
    assert xs[..i] == xs;
    r := sb[..|sb| - 1];
  }

  lemma {:induction false} JoinSnoc(xs: seq<string>)
    requires |xs| >= 2
    ensures Join(xs) == Join(xs[..|xs| - 1]) + "." + xs[|xs| - 1]
  {
    if |xs| > 2 {
      JoinSnoc(xs[1..]);
      assert xs[1..][..|xs| - 2] == xs[..|xs| - 1][1..];
    }
  }

  /** Splitting undoes joining, for dot-free elements. */
  lemma {:induction false} SplitJoin(xs: seq<string>)
    requires |xs| > 0
    requires forall i | 0 <= i < |xs| :: DotFree(xs[i])
    ensures Split(Join(xs)) == xs
  {
    if |xs| == 1 {
      SplitDotFree(xs[0]);
    } else {
      SplitJoin(xs[1..]);
      SplitDotThen(xs[0], Join(xs[1..]));
    }
  }

  /** Joining undoes splitting, for every string. */
  lemma {:induction false} JoinSplit(s: string)
    ensures Join(Split(s)) == s
  {
    if |s| > 0 {
      var rest := Split(s[1..]);
      JoinSplit(s[1..]);
      if s[0] == '.' {
        assert ([""] + rest)[1..] == rest;
        assert s == "." + s[1..];
      } else {
        var p := [[s[0]] + rest[0]] + rest[1..];
        if |rest| > 1 {
          assert p[1..] == rest[1..];
          assert Join(rest) == rest[0] + "." + Join(rest[1..]);
        }
        assert s == [s[0]] + s[1..];
      }
    }
  }

  /** The round trip: tokenizing the dotted join of well-formed segments
      gives the segments back. */
  lemma RoundTrip(xs: seq<string>)
    requires AllTokens(xs)
    ensures Tokens(Join(xs)) == xs
  {
    if |xs| > 0 {
      SplitJoin(xs);
      forall i | 0 <= i < |xs| ensures Trim(xs[i]) == xs[i] {
        TrimToken(xs[i]);
      }
      TrimAllAt(xs);
      assert TrimAll(xs) == xs;
      KeepsTokens(xs);
    }
  }

  /** A single string is kept exactly when it is non-empty. */
  lemma KeepOne(x: string)
    ensures Keep([x]) == if x == "" then [] else [x]
  {
    assert [x][1..] == [];
  }

  /** Only empty strings: nothing is kept. */
  lemma {:induction false} KeepBlank(xs: seq<string>)
    requires forall i | 0 <= i < |xs| :: xs[i] == ""
    ensures Keep(xs) == []
  {
    if |xs| > 0 {
      KeepBlank(xs[1..]);
    }
  }

  lemma {:induction false} KeepsTokens(xs: seq<string>)
    requires AllTokens(xs)
    ensures Keep(xs) == xs
  {
    if |xs| > 0 {
      KeepsTokens(xs[1..]);
    }
  }

  /** Kotlin `sanitize`: tokenize every raw string, then flatten, in order. */
  function Sanitize(strs: seq<string>): (r: seq<string>)
    ensures AllTokens(r)
  {
    if |strs| == 0 then []
    else
      TokensWellFormed(strs[0]);
      Tokens(strs[0]) + Sanitize(strs[1..])
  }

  /** Tokenize-then-flatten distributes over concatenation. */
  lemma {:induction false} SanitizeConcat(a: seq<string>, b: seq<string>)
    ensures Sanitize(a + b) == Sanitize(a) + Sanitize(b)
  {
    if |a| == 0 {
      assert a + b == b;
    } else {
      assert (a + b)[1..] == a[1..] + b;
      SanitizeConcat(a[1..], b);
    }
  }

  /** Already well-formed segments pass through the sanitizer unchanged. */
  lemma {:induction false} SanitizeTokens(ts: seq<string>)
    requires AllTokens(ts)
    ensures Sanitize(ts) == ts
  {
    if |ts| > 0 {
      TokenIsFixed(ts[0]);
      SanitizeTokens(ts[1..]);
    }
  }

  lemma SanitizeIdempotent(strs: seq<string>)
    ensures Sanitize(Sanitize(strs)) == Sanitize(strs)
  {
    SanitizeTokens(Sanitize(strs));
  }

  // ---------------------------------------------------------------------
  // Separators around and between segments
  // ---------------------------------------------------------------------

  /** A dot cuts a dotted string into two halves tokenized independently. */
  lemma TokensAcrossDot(a: string, b: string)
    ensures Tokens(a + "." + b) == Tokens(a) + Tokens(b)
  {
    var sa := Split(a + ".");
    assert sa == Split(a) + [""] by { SplitTrailingDot(a); }
    assert sa[..|sa| - 1] == Split(a);
    SplitAfterBoundary(a + ".", b);
    TokensConcat(Split(a), Split(b));
  }

  /** A whitespace character before a string never reaches a token. */
  lemma TokensBlankFirst(w: char, x: string)
    requires IsWhitespace(w)
    ensures Tokens([w] + x) == Tokens(x)
  {
    var sx := Split(x);
    assert ([w] + x)[1..] == x;
    assert Split([w] + x) == [[w] + sx[0]] + sx[1..];
    TrimStartSkips([w], sx[0]);
    TrimAllAt(Split([w] + x));
    TrimAllAt(sx);
    assert TrimAll(Split([w] + x)) == TrimAll(sx);
  }

  /** Where the last piece of `y` starts: just after its last dot, or at 0. */
  function LastPieceStart(y: string): (k: nat)
    ensures k <= |y|
    ensures k == 0 || y[k - 1] == '.'
    ensures DotFree(y[k..])
  {
    if |y| == 0 || y[|y| - 1] == '.' then |y|
    else
      var k := LastPieceStart(y[..|y| - 1]);
      assert y[k..] == y[..|y| - 1][k..] + [y[|y| - 1]];
      k
  }

  /** Trailing whitespace never changes what trimming leaves. */
  lemma {:induction false} TrimAppendBlank(y: string, w: string)
    requires AllWhitespace(w)
    ensures Trim(y + w) == Trim(y)
  {
    if |y| == 0 {
      assert y + w == w + "";
      TrimStartSkips(w, "");
    } else if IsWhitespace(y[0]) {
      assert (y + w)[1..] == y[1..] + w;
      TrimAppendBlank(y[1..], w);
    } else {
      TrimEndSkips(y, w);
    }
  }

  /** A whitespace character after a string never reaches a token. */
  lemma TokensBlankLast(y: string, w: char)
    requires IsWhitespace(w)
    ensures Tokens(y + [w]) == Tokens(y)
  {
    var k := LastPieceStart(y);
    var a, cur := y[..k], y[k..];
    assert y == a + cur && y + [w] == a + (cur + [w]);
    assert DotFree(cur + [w]);
    TokensAfterPiece(a, cur);
    TokensAfterPiece(a, cur + [w]);
    TrimAppendBlank(cur, [w]);
  }

  /** Dots and whitespace in front of a string are ignored. */
  lemma {:induction false} TokensSkipLeading(p: string, x: string)
    requires AllSeparators(p)
    ensures Tokens(p + x) == Tokens(x)
  {
    if |p| > 0 {
      var z := p[1..] + x;
      TokensSkipLeading(p[1..], x);
      if p[0] == '.' {
        assert p + x == "" + "." + z;
        TokensAcrossDot("", z);
        TokensEmptyIff("");
      } else {
        assert p + x == [p[0]] + z;
        TokensBlankFirst(p[0], z);
      }
    } else {
      assert p + x == x;
    }
  }

  /** Dots and whitespace after a string are ignored. */
  lemma {:induction false} TokensSkipTrailing(x: string, q: string)
    requires AllSeparators(q)
    ensures Tokens(x + q) == Tokens(x)
  {
    if |q| > 0 {
      var q' := q[..|q| - 1];
      var c := q[|q| - 1];
      assert x + q == (x + q') + [c];
      TokensSkipTrailing(x, q');
      if c == '.' {
        TokensTrailingDot(x + q');
      } else {
        TokensBlankLast(x + q', c);
      }
    } else {
      assert x + q == x;
    }
  }

  /** A segment surrounded by any mix of dots and whitespace tokenizes to
      that one segment. */
  lemma PaddedSegment(p: string, t: string, q: string)
    requires AllSeparators(p) && AllSeparators(q) && IsToken(t)
    ensures Tokens(p + t + q) == [t]
  {
    assert p + t + q == p + (t + q);
    TokensSkipLeading(p, t + q);
    TokensSkipTrailing(t, q);
    TokenIsFixed(t);
  }

  /** Pieces that each tokenize to one segment, joined with dots, tokenize
      to those segments in order. */
  lemma {:induction false} JoinedSegments(xs: seq<string>, ts: seq<string>)
    requires |xs| == |ts|
    requires forall i | 0 <= i < |xs| :: Tokens(xs[i]) == [ts[i]]
    ensures Tokens(Join(xs)) == ts
  {
    if |xs| == 0 {
      TokensEmptyIff("");
    } else if |xs| > 1 {
      JoinedSegments(xs[1..], ts[1..]);
      TokensAcrossDot(xs[0], Join(xs[1..]));
      assert ts == [ts[0]] + ts[1..];
    }
  }

  /** Whitespace inside a segment is kept; only the whitespace next to a
      dot or an end goes. */
  lemma InnerSpaceBeforeDot()
    ensures Tokens("a b. c") == ["a b", "c"]
  {
    var ab, c := "a b", "c";
    assert IsToken(ab) && IsToken(c);
    TokenIsFixed(ab);
    PaddedSegment(" ", c, "");
    assert "a b. c" == ab + "." + (" " + c + "");
    TokensAcrossDot(ab, " " + c + "");
  }

  lemma InnerSpaceAfterDot()
    ensures Tokens("a.b c") == ["a", "b c"]
  {
    var a, bc := "a", "b c";
    assert IsToken(a) && IsToken(bc);
    TokenIsFixed(a);
    TokenIsFixed(bc);
    assert "a.b c" == a + "." + bc;
    TokensAcrossDot(a, bc);
  }
}
