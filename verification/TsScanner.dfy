/**
  The scanner that splits generated TypeScript at top-level delimiters: it skips
  strings, comments and anything nested in the four bracket kinds.
 */
module TsScanner {
  import opened Text

  // ---- White space and trimming ----

  /** Unicode White_Space, the class Rust's `str::trim` removes. */
  predicate IsSpace(c: char) {
    || '\t' <= c <= '\r' || c == ' '
    || c == '\U{85}' || c == '\U{A0}' || c == '\U{1680}'
    || '\U{2000}' <= c <= '\U{200A}'
    || c == '\U{2028}' || c == '\U{2029}' || c == '\U{202F}' || c == '\U{205F}' || c == '\U{3000}'
  }

  predicate Blank(s: string) { forall i | 0 <= i < |s| :: IsSpace(s[i]) }

  /** Non-empty with no space at either end. */
  predicate Trimmed(s: string) { s != [] && !IsSpace(s[0]) && !IsSpace(s[|s| - 1]) }

  function TrimStart(s: string): string {
    if s != [] && IsSpace(s[0]) then TrimStart(s[1..]) else s
  }

  function TrimEnd(s: string): string {
    if s != [] && IsSpace(s[|s| - 1]) then TrimEnd(s[..|s| - 1]) else s
  }

  function Trim(s: string): string { TrimEnd(TrimStart(s)) }

  lemma {:induction false} TrimStartCuts(s: string) returns (lead: string)
    ensures Blank(lead) && s == lead + TrimStart(s)
    ensures TrimStart(s) == [] || !IsSpace(TrimStart(s)[0])
  {
    lead := [];
    if s != [] && IsSpace(s[0]) {
      lead := TrimStartCuts(s[1..]);
      lead := [s[0]] + lead;
      assert s == [s[0]] + s[1..];
    }
  }

  lemma {:induction false} TrimEndCuts(s: string) returns (tail: string)
    ensures Blank(tail) && s == TrimEnd(s) + tail
    ensures TrimEnd(s) == [] || !IsSpace(TrimEnd(s)[|TrimEnd(s)| - 1])
    decreases |s|
  {
    tail := [];
    if s != [] && IsSpace(s[|s| - 1]) {
      tail := TrimEndCuts(s[..|s| - 1]);
      tail := tail + [s[|s| - 1]];
      assert s == s[..|s| - 1] + [s[|s| - 1]];
    }
  }

  lemma {:induction false} TrimStartMargin(lead: string, p: string)
    requires Blank(lead) && (p == [] || !IsSpace(p[0]))
    ensures TrimStart(lead + p) == p
  {
    if lead == [] {
      assert lead + p == p;
    } else {
      assert (lead + p)[0] == lead[0] && (lead + p)[1..] == lead[1..] + p;
      TrimStartMargin(lead[1..], p);
    }
  }

  lemma {:induction false} TrimEndMargin(p: string, tail: string)
    requires Blank(tail) && (p == [] || !IsSpace(p[|p| - 1]))
    ensures TrimEnd(p + tail) == p
    decreases |tail|
  {
    if tail == [] {
      assert p + tail == p;
    } else {
      var n := |tail| - 1;
      assert (p + tail)[|p + tail| - 1] == tail[n] && (p + tail)[..|p + tail| - 1] == p + tail[..n];
      TrimEndMargin(p, tail[..n]);
    }
  }

  /** Trimming removes exactly the blank margins. */
  lemma TrimMargins(lead: string, p: string, tail: string)
    requires Blank(lead) && Blank(tail) && Trimmed(p)
    ensures Trim(lead + p + tail) == p
  {
    assert lead + p + tail == lead + (p + tail) && (p + tail)[0] == p[0];
    TrimStartMargin(lead, p + tail);
    TrimEndMargin(p, tail);
  }

  /** Every text is its trimmed form between two blank margins. */
  lemma TrimDecomposes(s: string) returns (lead: string, tail: string)
    ensures Blank(lead) && Blank(tail) && s == lead + Trim(s) + tail
    ensures Trim(s) == [] || Trimmed(Trim(s))
  {
    lead := TrimStartCuts(s);
    tail := TrimEndCuts(TrimStart(s));
    assert s == lead + (Trim(s) + tail);
    if Trim(s) != [] { assert Trim(s)[0] == TrimStart(s)[0]; }
  }

  // ---- The scan state ----

  datatype Scan = Scan(brace: nat, bracket: nat, paren: nat, angle: nat,
                       delim: Option<char>, escape: bool, block: bool, line: bool,
                       prev: Option<char>)

  const Start: Scan := Scan(0, 0, 0, 0, None, false, false, false, None)

  predicate Ignoring(s: Scan) { s.delim.Some? || s.block || s.line }

  predicate AtDepthZero(s: Scan) { s.brace == 0 && s.bracket == 0 && s.paren == 0 && s.angle == 0 }

  /** Where a delimiter separates. */
  predicate Top(s: Scan) { !Ignoring(s) && AtDepthZero(s) }

  function Pred(n: nat): nat { if n == 0 then 0 else n - 1 }

  function Observed(s: Scan, ch: char): Scan {
    if s.line then s.(line := ch != '\n', prev := Some(ch))
    else if s.block then
      if s.prev == Some('*') && ch == '/' then s.(block := false, prev := None) else s.(prev := Some(ch))
    else if s.delim.Some? then
      if s.escape then s.(escape := false, prev := Some(ch))
      else if ch == '\\' then s.(escape := true, prev := Some(ch))
      else s.(delim := if ch == s.delim.value then None else s.delim, prev := Some(ch))
    else if s.prev == Some('/') && ch == '/' then s.(line := true, prev := Some(ch))
    else if s.prev == Some('/') && ch == '*' then s.(block := true, prev := Some(ch))
    else Opened(s, ch).(prev := Some(ch))
  }

  function Depth(depth: nat, ch: char, open: char, close: char): nat {
    if ch == open then depth + 1 else if ch == close then Pred(depth) else depth
  }

  function Opened(s: Scan, ch: char): Scan {
    s.(delim := if ch == '\"' || ch == '\'' then Some(ch) else s.delim,
       brace := Depth(s.brace, ch, '{', '}'), bracket := Depth(s.bracket, ch, '[', ']'),
       paren := Depth(s.paren, ch, '(', ')'), angle := Depth(s.angle, ch, '<', '>'))
  }

  /** The mutable scanner, one character at a time. */
  class ScanState {
    var brace: nat
    var bracket: nat
    var paren: nat
    var angle: nat
    var delim: Option<char>
    var escape: bool
    var block: bool
    var line: bool
    var prev: Option<char>

    ghost function State(): Scan
      reads this
    {
      Scan(brace, bracket, paren, angle, delim, escape, block, line, prev)
    }

    constructor ()
      ensures State() == Start
    {
      brace, bracket, paren, angle := 0, 0, 0, 0;
      delim, escape, block, line, prev := None, false, false, false, None;
    }

    method Observe(ch: char)
      modifies this
      ensures State() == Observed(old(State()), ch)
    {
      if line {
        if ch == '\n' { line := false; }
        prev := Some(ch);
        return;
      }
      if block {
        if prev == Some('*') && ch == '/' { block := false; prev := None; } else { prev := Some(ch); }
        return;
      }
      if delim.Some? {
        if escape { escape := false; }
        else if ch == '\\' { escape := true; }
        else if ch == delim.value { delim := None; }
        prev := Some(ch);
        return;
      }
      if prev == Some('/') && ch == '/' { line := true; prev := Some(ch); return; }
      if prev == Some('/') && ch == '*' { block := true; prev := Some(ch); return; }
      match ch {
        case '\"' => delim := Some(ch);
        case '\'' => delim := Some(ch);
        case '{' => brace := brace + 1;
        case '}' => brace := Pred(brace);
        case '[' => bracket := bracket + 1;
        case ']' => bracket := Pred(bracket);
        case '(' => paren := paren + 1;
        case ')' => paren := Pred(paren);
        case '<' => angle := angle + 1;
        case '>' => if angle > 0 { angle := angle - 1; }
        case _ =>
      }
      prev := Some(ch);
    }

    method AtTopLevel() returns (r: bool)
      ensures r == Top(State())
    {
      r := !(delim.Some? || block || line) && brace == 0 && bracket == 0 && paren == 0 && angle == 0;
    }
  }

  // ---- Splitting ----

  function Kept(piece: string): seq<string> {
    if Trim(piece) == [] then [] else [Trim(piece)]
  }

  /** The parts still to come, in state `s`, with `piece` already read of the current one. */
  function Cuts(text: string, s: Scan, delims: set<char>, piece: string): seq<string> {
    if text == [] then Kept(piece)
    else if Top(s) && text[0] in delims then Kept(piece) + Cuts(text[1..], Observed(s, text[0]), delims, [])
    else Cuts(text[1..], Observed(s, text[0]), delims, piece + [text[0]])
  }

  function Split(text: string, delims: set<char>): seq<string> { Cuts(text, Start, delims, []) }

  /** The parts still to come when `input[start..index]` has been read of the current one. */
  ghost function Left(input: string, start: nat, index: nat, s: Scan, delims: set<char>): seq<string>
    requires start <= index <= |input|
  {
    Cuts(input[index..], s, delims, input[start..index])
  }

  lemma LeftStep(input: string, start: nat, index: nat, s: Scan, delims: set<char>)
    requires start <= index < |input|
    ensures var next := Observed(s, input[index]);
            Left(input, start, index, s, delims) ==
            if Top(s) && input[index] in delims
            then Kept(input[start..index]) + Left(input, index + 1, index + 1, next, delims)
            else Left(input, start, index + 1, next, delims)
  {
    assert input[index..][0] == input[index] && input[index..][1..] == input[index + 1..];
    assert input[index + 1..index + 1] == [];
    assert input[start..index + 1] == input[start..index] + [input[index]];
  }

  lemma LeftEnds(input: string, start: nat, s: Scan, delims: set<char>)
    requires start <= |input|
    ensures Left(input, 0, 0, s, delims) == Cuts(input, s, delims, [])
    ensures Left(input, start, |input|, s, delims) == Kept(input[start..])
  {
    assert input[0..] == input && input[0..0] == [] && input[|input|..] == [];
    assert input[start..] == input[start..|input|];
  }

  /** One turn of the splitting loop: what it finishes, and where the next part starts. */
  method Advance(input: string, start: nat, index: nat, state: ScanState, delims: set<char>)
    returns (done: seq<string>, next: nat)
    requires start <= index < |input|
    modifies state
    ensures next <= index + 1 && state.State() == Observed(old(state.State()), input[index])
    ensures Left(input, start, index, old(state.State()), delims)
            == done + Left(input, next, index + 1, state.State(), delims)
  {
    LeftStep(input, start, index, state.State(), delims);
    done, next := [], start;
    var top := state.AtTopLevel();
    if top && input[index] in delims {
      done, next := Kept(input[start..index]), index + 1;
    }
    state.Observe(input[index]);
  }

  method SplitTopLevelMulti(input: string, delims: set<char>) returns (parts: seq<string>)
    ensures parts == Split(input, delims)
  {
    var state := new ScanState();
    LeftEnds(input, 0, Start, delims);
    var start: nat := 0;
    parts := [];
    ghost var todo := Left(input, 0, 0, Start, delims);
    for index := 0 to |input|
      invariant fresh(state) && start <= index
      invariant todo == Left(input, start, index, state.State(), delims)
      invariant Split(input, delims) == parts + todo
    {
      var done, next := Advance(input, start, index, state, delims);
      todo := Left(input, next, index + 1, state.State(), delims);
      Regroup(parts, done, todo);
      parts, start := parts + done, next;
    }
    LeftEnds(input, start, state.State(), delims);
    parts := parts + Kept(input[start..]);
  }

  function Join(parts: seq<string>, sep: string): string {
    if parts == [] then [] else if |parts| == 1 then parts[0] else parts[0] + sep + Join(parts[1..], sep)
  }

  // ---- Scanning whole texts ----

  ghost function Scanned(s: Scan, text: string): Scan
    decreases |text|
  {
    if text == [] then s else Scanned(Observed(s, text[0]), text[1..])
  }

  /** No delimiter of `delims` separates while `text` is read from `s`. */
  ghost predicate Uncut(s: Scan, text: string, delims: set<char>)
    decreases |text|
  {
    text == [] || (!(Top(s) && text[0] in delims) && Uncut(Observed(s, text[0]), text[1..], delims))
  }

  /** A part that can stand between two separators. */
  ghost predicate CleanPart(p: string, delims: set<char>) {
    Trimmed(p) && Uncut(Start, p, delims) && Top(Scanned(Start, p))
  }

  /** States that treat every text alike: only '/' and '*' matter in the previous character. */
  ghost predicate Alike(s: Scan, t: Scan) {
    && s.(prev := None) == t.(prev := None)
    && (s.prev == Some('/') <==> t.prev == Some('/'))
    && (s.prev == Some('*') <==> t.prev == Some('*'))
  }

  lemma {:induction false} AlikeTexts(s: Scan, t: Scan, text: string, delims: set<char>)
    requires Alike(s, t)
    ensures Alike(Scanned(s, text), Scanned(t, text))
    ensures Uncut(s, text, delims) <==> Uncut(t, text, delims)
    decreases |text|
  {
    if text != [] {
      AlikeStep(s, t, text[0]);
      AlikeTexts(Observed(s, text[0]), Observed(t, text[0]), text[1..], delims);
    }
  }

  lemma AlikeStep(s: Scan, t: Scan, ch: char)
    requires Alike(s, t)
    ensures Alike(Observed(s, ch), Observed(t, ch))
  {
  }

  /** Strings are delimited by quotes, and an escape is pending only inside one. */
  ghost predicate Sound(s: Scan) {
    && (s.escape ==> s.delim.Some?)
    && (s.delim.Some? ==> s.delim.value == '\"' || s.delim.value == '\'')
  }

  lemma {:induction false} ScannedSound(s: Scan, text: string)
    requires Sound(s)
    ensures Sound(Scanned(s, text))
    decreases |text|
  {
    if text != [] { ScannedSound(Observed(s, text[0]), text[1..]); }
  }

  lemma {:induction false} ScannedAppend(s: Scan, a: string, b: string)
    ensures Scanned(s, a + b) == Scanned(Scanned(s, a), b)
    decreases |a|
  {
    if a == [] {
      assert a + b == b;
    } else {
      assert (a + b)[0] == a[0] && (a + b)[1..] == a[1..] + b;
      ScannedAppend(Observed(s, a[0]), a[1..], b);
    }
  }

  lemma {:induction false} UncutAppend(s: Scan, a: string, b: string, delims: set<char>)
    ensures Uncut(s, a + b, delims) <==> Uncut(s, a, delims) && Uncut(Scanned(s, a), b, delims)
    decreases |a|
  {
    if a == [] {
      assert a + b == b;
    } else {
      assert (a + b)[0] == a[0] && (a + b)[1..] == a[1..] + b;
      UncutAppend(Observed(s, a[0]), a[1..], b, delims);
    }
  }

  /** Reading an uncut text only lengthens the current piece. */
  lemma {:induction false} CutsThrough(s: Scan, a: string, rest: string, delims: set<char>, piece: string)
    requires Uncut(s, a, delims)
    ensures Cuts(a + rest, s, delims, piece) == Cuts(rest, Scanned(s, a), delims, piece + a)
    decreases |a|
  {
    if a == [] {
      assert a + rest == rest && piece + a == piece;
    } else {
      assert (a + rest)[0] == a[0] && (a + rest)[1..] == a[1..] + rest;
      CutsThrough(Observed(s, a[0]), a[1..], rest, delims, piece + [a[0]]);
      assert piece + [a[0]] + a[1..] == piece + a;
    }
  }

  // ---- Split undoes join ----

  /** Separators as the source writes them: `" | "` has one space before, `", "` none. */
  function Separator(padded: bool, d: char): string {
    (if padded then [' '] else []) + [d, ' ']
  }

  predicate IsDelimiter(d: char) { d == '|' || d == ',' || d == ';' }

  /** A state reached between parts. */
  ghost predicate Fresh(s: Scan) { Alike(s, Start) }

  lemma PlainStep(s: Scan, c: char)
    requires Top(s) && (c == ' ' || IsDelimiter(c))
    ensures Observed(s, c) == s.(prev := Some(c))
  {
  }

  /** A space inside or after a part only lengthens it. */
  lemma SpaceRead(s: Scan, rest: string, delims: set<char>, piece: string)
    requires Top(s) && ' ' !in delims
    ensures Cuts([' '] + rest, s, delims, piece) == Cuts(rest, s.(prev := Some(' ')), delims, piece + [' '])
  {
    PlainStep(s, ' ');
    assert ([' '] + rest)[0] == ' ' && ([' '] + rest)[1..] == rest;
  }

  lemma DelimiterRead(s: Scan, d: char, rest: string, delims: set<char>, piece: string)
    requires Top(s) && IsDelimiter(d) && d in delims
    ensures Cuts([d] + rest, s, delims, piece) == Kept(piece) + Cuts(rest, s.(prev := Some(d)), delims, [])
  {
    PlainStep(s, d);
    assert ([d] + rest)[0] == d && ([d] + rest)[1..] == rest;
  }

  /** The state after a separator read at top level. */
  ghost function Between(s: Scan): Scan { s.(prev := Some(' ')) }

  lemma SeparatorCuts(s: Scan, padded: bool, d: char, rest: string, delims: set<char>, piece: string)
    requires Top(s) && Sound(s) && IsDelimiter(d) && d in delims && ' ' !in delims
    ensures Fresh(Between(s))
    ensures Cuts(Separator(padded, d) + rest, s, delims, piece)
            == Kept(piece + if padded then [' '] else []) + Cuts(rest, Between(s), delims, [' '])
  {
    var tail := [d] + ([' '] + rest);
    if padded {
      assert Separator(padded, d) + rest == [' '] + tail;
      SpaceRead(s, tail, delims, piece);
      DelimiterRead(s.(prev := Some(' ')), d, [' '] + rest, delims, piece + [' ']);
    } else {
      assert Separator(padded, d) + rest == tail;
      DelimiterRead(s, d, [' '] + rest, delims, piece);
      assert piece + [] == piece;
    }
    SpaceRead(s.(prev := Some(d)), rest, delims, []);
    assert [] + [' '] == [' '];
  }

  lemma {:induction false} SplitJoinFrom(parts: seq<string>, padded: bool, d: char, delims: set<char>, s: Scan, lead: string)
    requires forall i | 0 <= i < |parts| :: CleanPart(parts[i], delims)
    requires IsDelimiter(d) && d in delims && ' ' !in delims
    requires Fresh(s) && Blank(lead)
    ensures Cuts(Join(parts, Separator(padded, d)), s, delims, lead) == parts
  {
    if parts == [] {
      BlankTrims(lead);
    } else if |parts| == 1 {
      LastPart(parts[0], delims, s, lead);
      assert parts == [parts[0]];
    } else {
      var rest := Join(parts[1..], Separator(padded, d));
      var after := FirstPart(parts[0], padded, d, rest, delims, s, lead);
      SplitJoinFrom(parts[1..], padded, d, delims, after, [' ']);
      assert parts == [parts[0]] + parts[1..];
    }
  }

  lemma LastPart(p: string, delims: set<char>, s: Scan, lead: string)
    requires CleanPart(p, delims) && Fresh(s) && Blank(lead)
    ensures Cuts(p, s, delims, lead) == [p]
  {
    AlikeTexts(s, Start, p, delims);
    CutsThrough(s, p, [], delims, lead);
    assert p + [] == p && lead + p == lead + p + [];
    TrimMargins(lead, p, []);
  }

  lemma FirstPart(p: string, padded: bool, d: char, rest: string, delims: set<char>, s: Scan, lead: string)
    returns (after: Scan)
    requires CleanPart(p, delims) && Fresh(s) && Blank(lead)
    requires IsDelimiter(d) && d in delims && ' ' !in delims
    ensures Fresh(after)
    ensures Cuts(p + Separator(padded, d) + rest, s, delims, lead) == [p] + Cuts(rest, after, delims, [' '])
  {
    var sep := Separator(padded, d);
    AlikeTexts(s, Start, p, delims);
    ScannedSound(s, p);
    assert p + sep + rest == p + (sep + rest);
    CutsThrough(s, p, sep + rest, delims, lead);
    SeparatorCuts(Scanned(s, p), padded, d, rest, delims, lead + p);
    TrimMargins(lead, p, if padded then [' '] else []);
    after := Between(Scanned(s, p));
  }

  lemma BlankTrims(s: string)
    requires Blank(s)
    ensures Trim(s) == []
  {
    TrimStartMargin(s, []);
    assert s + [] == s;
  }

  /** MAIN: joining clean parts and splitting the result gives the parts back. */
  lemma SplitJoin(parts: seq<string>, padded: bool, d: char, delims: set<char>)
    requires forall i | 0 <= i < |parts| :: CleanPart(parts[i], delims)
    requires IsDelimiter(d) && d in delims && ' ' !in delims
    ensures Split(Join(parts, Separator(padded, d)), delims) == parts
  {
    SplitJoinFrom(parts, padded, d, delims, Start, []);
  }

  // ---- What splitting produces ----

  /** No line comment is open anywhere in the text, and it ends at top level. */
  ghost predicate Settled(s: Scan, text: string)
    decreases |text|
  {
    !s.line && if text == [] then Top(s) else Settled(Observed(s, text[0]), text[1..])
  }

  lemma BlankStep(s: Scan, c: char)
    requires IsSpace(c) && !s.line && Sound(s)
    ensures Observed(s, c) == s.(prev := Some(c), escape := s.escape && s.block)
  {
  }

  lemma {:induction false} BlankKeepsTop(s: Scan, blank: string)
    requires Blank(blank) && !s.line && Sound(s)
    ensures Top(Scanned(s, blank)) <==> Top(s)
    ensures !Scanned(s, blank).line
    ensures Fresh(s) ==> Fresh(Scanned(s, blank))
    decreases |blank|
  {
    if blank != [] {
      BlankStep(s, blank[0]);
      BlankKeepsTop(Observed(s, blank[0]), blank[1..]);
    }
  }

  /** Trimming a clean piece leaves a clean part. */
  lemma TrimmedPieceClean(s: Scan, piece: string, delims: set<char>)
    requires Fresh(s) && Uncut(s, piece, delims) && Settled(s, piece)
    requires Trim(piece) != []
    ensures CleanPart(Trim(piece), delims)
  {
    var lead, tail := TrimDecomposes(piece);
    var p := Trim(piece);
    assert piece == lead + (p + tail);
    UncutAppend(s, lead, p + tail, delims);
    SettledAppend(s, lead, p + tail);
    BlankKeepsTop(s, lead);
    TrimmedTailClean(Scanned(s, lead), p, tail, delims);
  }

  lemma TrimmedTailClean(s: Scan, p: string, tail: string, delims: set<char>)
    requires Fresh(s) && Uncut(s, p + tail, delims) && Settled(s, p + tail)
    requires Trimmed(p) && Blank(tail)
    ensures CleanPart(p, delims)
  {
    UncutAppend(s, p, tail, delims);
    AlikeTexts(s, Start, p, delims);
    SettledAppend(s, p, tail);
    ScannedSound(s, p);
    SettledEnd(Scanned(s, p), tail);
    BlankKeepsTop(Scanned(s, p), tail);
  }

  lemma {:induction false} SettledAppend(s: Scan, a: string, b: string)
    requires Settled(s, a + b)
    ensures Settled(Scanned(s, a), b)
    decreases |a|
  {
    if a == [] {
      assert a + b == b;
    } else {
      assert (a + b)[0] == a[0] && (a + b)[1..] == a[1..] + b;
      SettledAppend(Observed(s, a[0]), a[1..], b);
    }
  }

  lemma {:induction false} SettledEnd(s: Scan, text: string)
    requires Settled(s, text)
    ensures !s.line && Top(Scanned(s, text))
    decreases |text|
  {
    if text != [] { SettledEnd(Observed(s, text[0]), text[1..]); }
  }

  /** A delimiter read at top level leaves the scanner between parts. */
  lemma DelimiterRestarts(s: Scan, d: char)
    requires Top(s) && Sound(s) && IsDelimiter(d)
    ensures Fresh(Observed(s, d))
  {
  }

  lemma {:induction false} CutsClean(text: string, s0: Scan, s: Scan, delims: set<char>, piece: string)
    requires Fresh(s0) && Uncut(s0, piece, delims) && s == Scanned(s0, piece)
    requires Settled(s0, piece + text)
    requires forall d | d in delims :: IsDelimiter(d)
    ensures forall p | p in Cuts(text, s, delims, piece) :: CleanPart(p, delims)
    decreases |text|
  {
    SettledAppend(s0, piece, text);
    if text == [] {
      assert piece + text == piece;
      if Trim(piece) != [] { TrimmedPieceClean(s0, piece, delims); }
    } else {
      var t := Observed(s, text[0]);
      if Top(s) && text[0] in delims {
        SettledPrefix(s0, piece, text);
        if Trim(piece) != [] { TrimmedPieceClean(s0, piece, delims); }
        ScannedSound(s0, piece);
        DelimiterRestarts(s, text[0]);
        assert [] + text[1..] == text[1..];
        CutsClean(text[1..], t, t, delims, []);
      } else {
        var longer := piece + [text[0]];
        assert longer + text[1..] == piece + text;
        UncutAppend(s0, piece, [text[0]], delims);
        ScannedAppend(s0, piece, [text[0]]);
        CutsClean(text[1..], s0, t, delims, longer);
      }
    }
  }

  lemma {:induction false} SettledPrefix(s: Scan, a: string, b: string)
    requires Settled(s, a + b) && Top(Scanned(s, a))
    ensures Settled(s, a)
    decreases |a|
  {
    if a != [] {
      assert (a + b)[0] == a[0] && (a + b)[1..] == a[1..] + b;
      SettledPrefix(Observed(s, a[0]), a[1..], b);
    } else {
      assert a + b == b;
    }
  }

  /** Splitting a settled text yields clean parts, so a re-joined split is stable. */
  lemma SplitClean(text: string, delims: set<char>)
    requires Settled(Start, text) && forall d | d in delims :: IsDelimiter(d)
    ensures forall p | p in Split(text, delims) :: CleanPart(p, delims)
  {
    assert [] + text == text;
    CutsClean(text, Start, Start, delims, []);
  }

  /** MAIN: splitting a settled text, joining the parts and splitting again gives the same parts. */
  lemma SplitStable(text: string, padded: bool, d: char, delims: set<char>)
    requires Settled(Start, text) && (forall c | c in delims :: IsDelimiter(c)) && d in delims
    ensures var parts := Split(text, delims);
            Split(Join(parts, Separator(padded, d)), delims) == parts
  {
    SplitClean(text, delims);
    var parts := Split(text, delims);
    forall i | 0 <= i < |parts| ensures CleanPart(parts[i], delims) { assert parts[i] in parts; }
    SplitJoin(parts, padded, d, delims);
  }

  // ---- Any layout ----

  /** A piece that is read back to top level without being cut; blanks around it do not matter. */
  ghost predicate Piece(p: string, delims: set<char>) { Uncut(Start, p, delims) && Top(Scanned(Start, p)) }

  function AllKept(pieces: seq<string>): seq<string> {
    if pieces == [] then [] else Kept(pieces[0]) + AllKept(pieces[1..])
  }

  lemma FirstPiece(p: string, d: char, rest: string, s: Scan, delims: set<char>)
    requires Piece(p, delims) && Fresh(s) && IsDelimiter(d) && d in delims
    ensures var after := Observed(Scanned(s, p), d);
            Fresh(after) && Cuts(p + [d] + rest, s, delims, []) == Kept(p) + Cuts(rest, after, delims, [])
  {
    AlikeTexts(s, Start, p, delims);
    ScannedSound(s, p);
    CutsThrough(s, p, [d] + rest, delims, []);
    Regroup(p, [d], rest);
    assert [] + p == p;
    DelimiterRead(Scanned(s, p), d, rest, delims, p);
    PlainStep(Scanned(s, p), d);
    DelimiterRestarts(Scanned(s, p), d);
  }

  lemma {:induction false} SplitPiecesFrom(pieces: seq<string>, d: char, s: Scan, delims: set<char>)
    requires forall p | p in pieces :: Piece(p, delims)
    requires IsDelimiter(d) && d in delims && Fresh(s) && pieces != []
    ensures Cuts(Join(pieces, [d]), s, delims, []) == AllKept(pieces)
  {
    var p := pieces[0];
    assert p in pieces;
    if |pieces| == 1 {
      AlikeTexts(s, Start, p, delims);
      CutsThrough(s, p, [], delims, []);
      assert p + [] == p && [] + p == p && Kept(p) + [] == Kept(p);
    } else {
      FirstPiece(p, d, Join(pieces[1..], [d]), s, delims);
      SplitPiecesFrom(pieces[1..], d, Observed(Scanned(s, p), d), delims);
    }
  }

  /** However the pieces are spaced, and with blank ones anywhere, splitting gives their trimmed forms. */
  lemma SplitPieces(pieces: seq<string>, d: char, delims: set<char>)
    requires forall p | p in pieces :: Piece(p, delims)
    requires IsDelimiter(d) && d in delims
    ensures Split(Join(pieces, [d]), delims) == AllKept(pieces)
  {
    if pieces == [] { BlankTrims([]); } else { SplitPiecesFrom(pieces, d, Start, delims); }
  }

  // ---- Nested text ----

  /** Text, a quoted string, or something between matching brackets. */
  datatype Token = Word(text: string) | Quoted(mark: char, text: string) | Group(open: char, inner: seq<Token>)

  predicate IsOpening(c: char) { c == '{' || c == '[' || c == '(' || c == '<' }

  function Closing(open: char): char {
    if open == '{' then '}' else if open == '[' then ']' else if open == '(' then ')' else '>'
  }

  predicate Ordinary(c: char) {
    && c != '\"' && c != '\'' && c != '/' && !IsOpening(c)
    && c != '}' && c != ']' && c != ')' && c != '>'
  }

  predicate WellFormed(t: Token) {
    match t
    case Word(text) => forall c | c in text :: Ordinary(c)
    case Quoted(mark, text) => (mark == '\"' || mark == '\'') && mark !in text && '\\' !in text
    case Group(open, inner) => IsOpening(open) && forall i | 0 <= i < |inner| :: WellFormed(inner[i])
  }

  function Source(t: Token): string
    decreases t, 0
  {
    match t
    case Word(text) => text
    case Quoted(mark, text) => [mark] + text + [mark]
    case Group(open, inner) => [open] + Sources(inner) + [Closing(open)]
  }

  function Sources(ts: seq<Token>): string
    decreases ts, 1
  {
    if ts == [] then [] else Source(ts[0]) + Sources(ts[1..])
  }

  /** A delimiter stands outside the brackets and the quotes. */
  predicate Exposed(t: Token, delims: set<char>) { t.Word? && exists c | c in t.text :: c in delims }

  /** Where a token can begin. */
  ghost predicate Open(s: Scan) { !Ignoring(s) && !s.escape && s.prev != Some('/') }

  /** Reading `text` from `s` comes back to where it was, and cuts nothing if `whole` or nested. */
  ghost predicate PassesOver(s: Scan, text: string, delims: set<char>, whole: bool) {
    && Open(Scanned(s, text)) && Scanned(s, text).(prev := s.prev) == s
    && (whole || !AtDepthZero(s) ==> Uncut(s, text, delims))
  }

  lemma PassesAppend(s: Scan, a: string, b: string, delims: set<char>, whole: bool)
    requires PassesOver(s, a, delims, whole) && PassesOver(Scanned(s, a), b, delims, whole)
    ensures PassesOver(s, a + b, delims, whole)
  {
    ScannedAppend(s, a, b);
    UncutAppend(s, a, b, delims);
  }

  lemma {:induction false} WordRead(s: Scan, text: string, delims: set<char>)
    requires Open(s) && forall c | c in text :: Ordinary(c)
    ensures PassesOver(s, text, delims, forall c | c in text :: c !in delims)
    decreases |text|
  {
    if text != [] {
      assert text[0] in text && forall c | c in text[1..] :: c in text;
      assert Observed(s, text[0]) == s.(prev := Some(text[0]));
      WordRead(Observed(s, text[0]), text[1..], delims);
    }
  }

  lemma {:induction false} QuoteRead(s: Scan, text: string, mark: char, delims: set<char>)
    requires s.delim == Some(mark) && !s.escape && !s.block && !s.line && mark != '/'
    requires mark !in text && mark != '\\' && '\\' !in text
    ensures var e := Scanned(s, text + [mark]);
            Open(e) && e.(prev := s.prev) == s.(delim := None) && Uncut(s, text + [mark], delims)
    decreases |text|
  {
    var all := text + [mark];
    var t := Observed(s, all[0]);
    if text == [] {
      assert all[1..] == [];
      assert Scanned(t, all[1..]) == t;
    } else {
      assert all[0] == text[0] && text[0] in text && all[1..] == text[1..] + [mark];
      QuoteRead(t, text[1..], mark, delims);
    }
  }

  lemma QuotedRead(s: Scan, t: Token, delims: set<char>)
    requires Open(s) && t.Quoted? && WellFormed(t) && forall d | d in delims :: IsDelimiter(d)
    ensures PassesOver(s, Source(t), delims, true)
  {
    var all := Source(t);
    assert all[0] == t.mark && all[1..] == t.text + [t.mark];
    QuoteRead(Observed(s, t.mark), t.text, t.mark, delims);
  }

  /** A bracket opens a level that its partner closes again. */
  lemma GroupRead(s: Scan, open: char, inner: string, delims: set<char>)
    requires Open(s) && IsOpening(open) && forall d | d in delims :: IsDelimiter(d)
    requires var t := Observed(s, open); Open(t) && PassesOver(t, inner, delims, false)
    ensures PassesOver(s, [open] + inner + [Closing(open)], delims, true)
  {
    var t, close := Observed(s, open), Closing(open);
    var rest := inner + [close];
    assert [open] + inner + [close] == [open] + rest;
    assert ([open] + rest)[0] == open && ([open] + rest)[1..] == rest;
    ScannedAppend(t, inner, [close]);
    UncutAppend(t, inner, [close], delims);
    var e := Scanned(t, inner);
    assert !AtDepthZero(e);
    assert [close][1..] == [];
    assert Scanned(e, [close]) == Observed(e, close);
    assert Observed(e, close).(prev := s.prev) == s;
  }

  lemma OpeningOpens(s: Scan, open: char)
    requires Open(s) && IsOpening(open)
    ensures Open(Observed(s, open)) && !AtDepthZero(Observed(s, open))
  {
  }

  lemma {:induction false} TokenRead(s: Scan, t: Token, delims: set<char>)
    requires Open(s) && WellFormed(t) && forall d | d in delims :: IsDelimiter(d)
    ensures PassesOver(s, Source(t), delims, !Exposed(t, delims))
    decreases t, 0
  {
    match t
    case Word(text) => WordRead(s, text, delims);
    case Quoted(_, _) => QuotedRead(s, t, delims);
    case Group(open, inner) =>
      OpeningOpens(s, open);
      TokensRead(Observed(s, open), inner, delims, false);
      GroupRead(s, open, Sources(inner), delims);
  }

  lemma {:induction false} TokensRead(s: Scan, ts: seq<Token>, delims: set<char>, whole: bool)
    requires Open(s) && (forall i | 0 <= i < |ts| :: WellFormed(ts[i])) && forall d | d in delims :: IsDelimiter(d)
    requires whole ==> forall i | 0 <= i < |ts| :: !Exposed(ts[i], delims)
    ensures PassesOver(s, Sources(ts), delims, whole)
    decreases ts, 1
  {
    if ts != [] {
      TokenRead(s, ts[0], delims);
      TokensRead(Scanned(s, Source(ts[0])), ts[1..], delims, whole);
      PassesAppend(s, Source(ts[0]), Sources(ts[1..]), delims, whole);
    }
  }

  /** Well-formed text whose delimiters are all inside brackets or quotes. */
  predicate Nested(ts: seq<Token>, delims: set<char>) { forall t | t in ts :: WellFormed(t) && !Exposed(t, delims) }

  function Texts(pieces: seq<seq<Token>>): seq<string> {
    if pieces == [] then [] else [Sources(pieces[0])] + Texts(pieces[1..])
  }

  lemma {:induction false} TextsArePieces(pieces: seq<seq<Token>>, delims: set<char>)
    requires forall d | d in delims :: IsDelimiter(d)
    requires forall p | p in pieces :: Nested(p, delims)
    ensures forall p | p in Texts(pieces) :: Piece(p, delims)
  {
    if pieces != [] {
      assert pieces[0] in pieces;
      TokensRead(Start, pieces[0], delims, true);
      TextsArePieces(pieces[1..], delims);
    }
  }

  /**
    MAIN: a delimiter inside quotes or between matching brackets of any kind never cuts; the
    others do. So pieces of nested text come back, trimmed and without the blank ones.
   */
  lemma SplitNested(pieces: seq<seq<Token>>, d: char, delims: set<char>)
    requires d in delims && forall c | c in delims :: IsDelimiter(c)
    requires forall p | p in pieces :: Nested(p, delims)
    ensures Split(Join(Texts(pieces), [d]), delims) == AllKept(Texts(pieces))
  {
    TextsArePieces(pieces, delims);
    SplitPieces(Texts(pieces), d, delims);
  }
}
