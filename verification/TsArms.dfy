/**
  The method a union arm is for: the arm's top-level braces, its fields, and the field
  named `method`. Each parser is proved to accept exactly the texts of its grammar.
 */
module TsArms {
  import opened Text
  import opened TsScanner

  // ---- The parsers ----

  /** The latest brace opened at top level when one first closes there. */
  function BraceSpan(text: string, i: nat, s: Scan, open: Option<nat>): (r: Option<(nat, nat)>)
    requires i <= |text| && (open.Some? ==> open.value < i)
    ensures r.Some? ==> r.value.0 < r.value.1 < |text|
    decreases |text| - i
  {
    if i == |text| then None
    else
      var ch, t := text[i], Observed(s, text[i]);
      if ch == '{' then BraceSpan(text, i + 1, t, if Top(s) then Some(i) else open)
      else if ch == '}' && Top(t) && open.Some? then Some((open.value, i))
      else BraceSpan(text, i + 1, t, open)
  }

  function LiteralEnd(text: string, i: nat, quote: char, escape: bool): (r: Option<nat>)
    requires i <= |text|
    ensures r.Some? ==> i <= r.value < |text|
    decreases |text| - i
  {
    if i == |text| then None
    else if escape then LiteralEnd(text, i + 1, quote, false)
    else if text[i] == '\\' then LiteralEnd(text, i + 1, quote, true)
    else if text[i] == quote then Some(i)
    else LiteralEnd(text, i + 1, quote, false)
  }

  /** A leading string literal and the number of characters it takes. */
  function StringLiteral(text: string): (r: Option<(string, nat)>)
    ensures r.Some? ==> r.value.1 <= |text|
  {
    if text == [] || !(text[0] == '\"' || text[0] == '\'') then None
    else
      match LiteralEnd(text, 1, text[0], false)
      case None => None
      case Some(end) => Some((text[1..end], end + 1))
  }

  predicate IsIdentChar(c: char) {
    'a' <= c <= 'z' || 'A' <= c <= 'Z' || '0' <= c <= '9' || c == '_'
  }

  function IdentLength(text: string): (n: nat)
    ensures n <= |text|
  {
    if text == [] || !IsIdentChar(text[0]) then 0 else 1 + IdentLength(text[1..])
  }

  predicate StartsWithColon(s: string) { s != [] && s[0] == ':' }

  function PropertyName(input: string): Option<string> {
    var trimmed := TrimStart(input);
    match StringLiteral(trimmed)
    case Some((literal, consumed)) =>
      if StartsWithColon(TrimStart(trimmed[consumed..])) then Some(literal) else None
    case None =>
      var end := IdentLength(trimmed);
      if end == 0 then None
      else
        if StartsWithColon(Unmarked(TrimStart(trimmed[end..]))) then Some(trimmed[..end]) else None
  }

  /** The text after an optional question mark. */
  function Unmarked(rest: string): string {
    if rest != [] && rest[0] == '?' then TrimStart(rest[1..]) else rest
  }

  function Property(input: string): Option<(string, string)> {
    match (PropertyName(input), IndexOf(input, ':'))
    case (Some(name), Some(i)) => Some((name, TrimStart(input[i + 1..])))
    case _ => None
  }

  const METHOD: string := "method"

  function LiteralValue(value: string): Option<string> {
    match StringLiteral(TrimStart(value)) case Some((m, _)) => Some(m) case None => None
  }

  function FirstMethod(fields: seq<string>): Option<string> {
    if fields == [] then None
    else
      match Property(fields[0])
      case Some((name, value)) =>
        if name == METHOD then LiteralValue(value) else FirstMethod(fields[1..])
      case None => FirstMethod(fields[1..])
  }

  function MethodOfArm(arm: string): Option<string> {
    match BraceSpan(arm, 0, Start, None)
    case None => None
    case Some((open, close)) => FirstMethod(Split(arm[open + 1..close], {','}))
  }

  /** An arm stays unless it is for a method named in `methods`; empty names are ignored. */
  predicate Stable(arm: string, methods: set<string>) {
    match MethodOfArm(arm)
    case None => true
    case Some(m) => m == "" || m !in methods
  }

  // ---- Braces ----

  /** The scanner's state before position `i`. */
  ghost function StateAt(text: string, i: nat): Scan
    requires i <= |text|
  {
    Scanned(Start, text[..i])
  }

  lemma StateStep(text: string, i: nat)
    requires i < |text|
    ensures StateAt(text, i + 1) == Observed(StateAt(text, i), text[i])
  {
    assert text[..i + 1] == text[..i] + [text[i]];
    ScannedAppend(Start, text[..i], [text[i]]);
  }

  /** A brace opened at top level. */
  ghost predicate Opens(text: string, i: nat) { i < |text| && text[i] == '{' && Top(StateAt(text, i)) }

  /** A brace that leaves the scanner at top level. */
  ghost predicate Closes(text: string, i: nat) { i < |text| && text[i] == '}' && Top(StateAt(text, i + 1)) }

  ghost predicate OpenBefore(text: string, i: nat) { exists o: nat | o < i :: Opens(text, o) }

  /** The last brace opened before `c`, which closes at top level. */
  ghost predicate Span(text: string, o: nat, c: nat) {
    o < c && Opens(text, o) && Closes(text, c) && forall k: nat | o < k < c :: !Opens(text, k)
  }

  /** The span that closes first, or none because none closes. */
  ghost predicate FirstSpan(text: string, r: Option<(nat, nat)>) {
    match r
    case Some((o, c)) => Span(text, o, c) && forall k: nat | k < c && Closes(text, k) :: !OpenBefore(text, k)
    case None => forall k: nat | Closes(text, k) :: !OpenBefore(text, k)
  }

  /** What the search knows at position `i`. */
  ghost predicate Searching(text: string, i: nat, open: Option<nat>) {
    && i <= |text|
    && (forall k: nat | k < i && Closes(text, k) :: !OpenBefore(text, k))
    && match open
       case Some(o) => o < i && Opens(text, o) && forall k: nat | o < k < i :: !Opens(text, k)
       case None => forall k: nat | k < i :: !Opens(text, k)
  }

  lemma {:induction false} SpanFrom(text: string, i: nat, open: Option<nat>)
    requires Searching(text, i, open)
    ensures FirstSpan(text, BraceSpan(text, i, StateAt(text, i), open))
    decreases |text| - i
  {
    if i < |text| {
      StateStep(text, i);
      if text[i] == '{' {
        SpanFrom(text, i + 1, if Top(StateAt(text, i)) then Some(i) else open);
      } else if !Closes(text, i) || open.None? {
        SpanFrom(text, i + 1, open);
      }
    }
  }

  lemma BraceSpanIsFirst(text: string)
    ensures FirstSpan(text, BraceSpan(text, 0, Start, None))
  {
    assert text[..0] == [];
    SpanFrom(text, 0, None);
  }

  /** MAIN: the loop finds the span that closes first, and finds none only if there is none. */
  method FindTopLevelBraceSpan(input: string) returns (r: Option<(nat, nat)>)
    ensures FirstSpan(input, r)
    ensures r == BraceSpan(input, 0, Start, None)
  {
    BraceSpanIsFirst(input);
    var state := new ScanState();
    var open: Option<nat> := None;
    for index := 0 to |input|
      invariant fresh(state) && (open.Some? ==> open.value < index)
      invariant BraceSpan(input, 0, Start, None) == BraceSpan(input, index, state.State(), open)
    {
      var ch := input[index];
      var top := state.AtTopLevel();
      if top && ch == '{' { open := Some(index); }
      state.Observe(ch);
      top := state.AtTopLevel();
      if top && ch == '}' && open.Some? { return Some((open.value, index)); }
    }
    return None;
  }

  // ---- Arms in braces ----

  /** Reading `text` closes no brace that it did not open. */
  ghost predicate Balanced(s: Scan, text: string)
    decreases |text|
  {
    text == [] || (!(!Ignoring(s) && text[0] == '}' && s.brace == 0) && Balanced(Observed(s, text[0]), text[1..]))
  }

  /** One brace deeper. */
  ghost function Deeper(s: Scan): Scan { s.(brace := s.brace + 1) }

  lemma DeeperStep(s: Scan, ch: char)
    requires Ignoring(s) || ch != '}' || s.brace > 0
    ensures Observed(Deeper(s), ch) == Deeper(Observed(s, ch))
  {
  }

  lemma {:induction false} DeeperText(s: Scan, text: string)
    requires Balanced(s, text)
    ensures Scanned(Deeper(s), text) == Deeper(Scanned(s, text))
    decreases |text|
  {
    if text != [] {
      DeeperStep(s, text[0]);
      DeeperText(Observed(s, text[0]), text[1..]);
    }
  }

  lemma {:induction false} BalancedPrefix(s: Scan, text: string, n: nat)
    requires Balanced(s, text) && n <= |text|
    ensures Balanced(s, text[..n])
    decreases |text|
  {
    if n > 0 {
      assert text[..n][1..] == text[1..][..n - 1];
      BalancedPrefix(Observed(s, text[0]), text[1..], n - 1);
    }
  }

  ghost function Braced(inner: string): string { ['{'] + inner + ['}'] }

  /** Inside balanced braces the scanner is one brace deeper than it would be alone. */
  lemma InsideBraces(inner: string, n: nat)
    requires Balanced(Start, inner) && n <= |inner|
    ensures Alike(StateAt(Braced(inner), n + 1), Deeper(Scanned(Start, inner[..n])))
  {
    var text := Braced(inner);
    assert text[..n + 1] == ['{'] + inner[..n];
    ScannedAppend(Start, ['{'], inner[..n]);
    var first := Scanned(Start, ['{']);
    assert first == Observed(Start, '{') by { assert ['{'][1..] == []; }
    BalancedPrefix(Start, inner, n);
    DeeperText(Start, inner[..n]);
    AlikeTexts(first, Deeper(Start), inner[..n], {});
  }

  lemma FirstSpanUnique(text: string, a: Option<(nat, nat)>, b: Option<(nat, nat)>)
    requires FirstSpan(text, a) && FirstSpan(text, b)
    ensures a == b
  {
    if a.Some? { assert OpenBefore(text, a.value.1); }
    if b.Some? { assert OpenBefore(text, b.value.1); }
    if a.Some? && b.Some? {
      assert a.value.1 == b.value.1;
      assert Opens(text, a.value.0) && Opens(text, b.value.0);
    }
  }

  lemma NotTopInside(inner: string, k: nat)
    requires Balanced(Start, inner) && 0 < k <= |inner| + 1
    ensures !Top(StateAt(Braced(inner), k))
  {
    InsideBraces(inner, k - 1);
  }

  lemma OuterSpan(inner: string)
    requires Balanced(Start, inner) && Top(Scanned(Start, inner))
    ensures Span(Braced(inner), 0, |inner| + 1)
  {
    var text := Braced(inner);
    var last := |inner| + 1;
    assert text[0] == '{' && text[last] == '}' && text[..0] == [];
    forall k: nat | 0 < k < last ensures !Opens(text, k) { NotTopInside(inner, k); }
    InsideBraces(inner, |inner|);
    assert inner[..|inner|] == inner;
    StateStep(text, last);
  }

  lemma OnlyOuterBraces(inner: string)
    requires Balanced(Start, inner) && Top(Scanned(Start, inner))
    ensures BraceSpan(Braced(inner), 0, Start, None) == Some((0, |inner| + 1))
  {
    var text := Braced(inner);
    OuterSpan(inner);
    forall k: nat | k < |inner| + 1 ensures !Closes(text, k) { NotTopInside(inner, k + 1); }
    BraceSpanIsFirst(text);
    FirstSpanUnique(text, BraceSpan(text, 0, Start, None), Some((0, |inner| + 1)));
  }

  // ---- String literals ----

  predicate IsQuote(q: char) { q == '\"' || q == '\'' }

  /** Escaped pairs and characters that are neither the quote nor a backslash. */
  predicate LiteralBody(m: string, q: char) {
    || m == []
    || (m[0] != q && m[0] != '\\' && LiteralBody(m[1..], q))
    || (|m| >= 2 && m[0] == '\\' && LiteralBody(m[2..], q))
  }

  ghost function Quoted(q: char, m: string): string { [q] + m + [q] }

  lemma {:induction false} LiteralEnds(before: string, m: string, q: char, rest: string)
    requires LiteralBody(m, q) && IsQuote(q)
    ensures LiteralEnd(before + m + [q] + rest, |before|, q, false) == Some(|before| + |m|)
    decreases |m|
  {
    var text := before + m + [q] + rest;
    if m == [] {
      assert text[|before|] == q;
    } else if m[0] == '\\' {
      assert text[|before|] == '\\';
      assert text == (before + m[..2]) + m[2..] + [q] + rest;
      LiteralEnds(before + m[..2], m[2..], q, rest);
    } else {
      assert text[|before|] == m[0];
      assert text == (before + [m[0]]) + m[1..] + [q] + rest;
      LiteralEnds(before + [m[0]], m[1..], q, rest);
    }
  }

  lemma LiteralParses(q: char, m: string, rest: string)
    requires IsQuote(q) && LiteralBody(m, q)
    ensures StringLiteral(Quoted(q, m) + rest) == Some((m, |m| + 2))
  {
    var text := Quoted(q, m) + rest;
    assert text == [q] + m + [q] + rest;
    LiteralEnds([q], m, q, rest);
    assert text[1..|m| + 1] == m;
  }

  lemma {:induction false} LiteralEndShape(text: string, i: nat, q: char)
    requires IsQuote(q) && i <= |text| && LiteralEnd(text, i, q, false).Some?
    ensures var end := LiteralEnd(text, i, q, false).value;
            text[end] == q && LiteralBody(text[i..end], q)
    decreases |text| - i
  {
    var end := LiteralEnd(text, i, q, false).value;
    if text[i] == '\\' {
      LiteralEndShape(text, i + 2, q);
      assert text[i..end][2..] == text[i + 2..end];
    } else if text[i] != q {
      LiteralEndShape(text, i + 1, q);
      assert text[i..end][1..] == text[i + 1..end];
    }
  }

  lemma LiteralShape(text: string) returns (q: char)
    requires StringLiteral(text).Some?
    ensures var (m, k) := StringLiteral(text).value;
            IsQuote(q) && LiteralBody(m, q) && k == |m| + 2 && text == Quoted(q, m) + text[k..]
  {
    q := text[0];
    LiteralEndShape(text, 1, q);
  }

  // ---- Property names ----

  predicate IsIdent(name: string) { name != [] && forall i | 0 <= i < |name| :: IsIdentChar(name[i]) }

  /** A name as a property writes it, blanks included: a literal, or an identifier that may be optional. */
  datatype Head =
    | LiteralHead(lead: string, quote: char, name: string, gap: string)
    | IdentHead(lead: string, name: string, gap: string, optional: Option<string>)

  predicate ValidHead(h: Head) {
    && Blank(h.lead) && Blank(h.gap)
    && match h
       case LiteralHead(_, q, name, _) => IsQuote(q) && LiteralBody(name, q)
       case IdentHead(_, name, _, optional) => IsIdent(name) && (optional.Some? ==> Blank(optional.value))
  }

  function Mark(optional: Option<string>): string {
    match optional case Some(after) => ['?'] + after case None => []
  }

  ghost function HeadText(h: Head): string {
    match h
    case LiteralHead(lead, q, name, gap) => lead + (Quoted(q, name) + gap)
    case IdentHead(lead, name, gap, optional) => lead + (name + (gap + Mark(optional)))
  }

  ghost function PropertyText(h: Head, rest: string): string { HeadText(h) + ([':'] + rest) }

  /** The field is a property with this name. */
  ghost predicate HasName(f: string, name: string) {
    exists h, rest :: ValidHead(h) && h.name == name && f == PropertyText(h, rest)
  }

  lemma TrimmedOpening(lead: string, t: string)
    requires Blank(lead) && t != [] && !IsSpace(t[0])
    ensures TrimStart(lead + t) == t
  {
    TrimStartMargin(lead, t);
  }

  lemma LiteralNameParses(h: Head, rest: string)
    requires h.LiteralHead? && ValidHead(h)
    ensures PropertyName(PropertyText(h, rest)) == Some(h.name)
  {
    var after := h.gap + ([':'] + rest);
    var t := Quoted(h.quote, h.name) + after;
    assert PropertyText(h, rest) == h.lead + t;
    assert t[0] == h.quote;
    TrimmedOpening(h.lead, t);
    LiteralParses(h.quote, h.name, after);
    assert t[|h.name| + 2..] == after;
    TrimmedOpening(h.gap, [':'] + rest);
  }

  lemma {:induction false} IdentLengthOf(name: string, rest: string)
    requires (forall i | 0 <= i < |name| :: IsIdentChar(name[i])) && (rest == [] || !IsIdentChar(rest[0]))
    ensures IdentLength(name + rest) == |name|
  {
    if name == [] {
      assert name + rest == rest;
    } else {
      assert (name + rest)[0] == name[0] && (name + rest)[1..] == name[1..] + rest;
      IdentLengthOf(name[1..], rest);
    }
  }

  lemma UnmarkedMark(optional: Option<string>, rest: string)
    requires optional.Some? ==> Blank(optional.value)
    ensures Unmarked(Mark(optional) + ([':'] + rest)) == [':'] + rest
  {
    var colon := [':'] + rest;
    if optional.Some? {
      var after := optional.value;
      assert Mark(optional) + colon == ['?'] + (after + colon) && (['?'] + (after + colon))[1..] == after + colon;
      TrimmedOpening(after, colon);
    } else {
      assert [] + colon == colon;
    }
  }

  lemma IdentParses(name: string, gap: string, tail: string)
    requires IsIdent(name) && Blank(gap) && tail != [] && !IsIdentChar(tail[0]) && !IsSpace(tail[0])
    ensures StringLiteral(name + (gap + tail)).None? && IdentLength(name + (gap + tail)) == |name|
    ensures TrimStart((name + (gap + tail))[|name|..]) == tail && (name + (gap + tail))[..|name|] == name
  {
    var t := name + (gap + tail);
    assert t[0] == name[0] && IsIdentChar(t[0]);
    assert (gap + tail)[0] == if gap == [] then tail[0] else gap[0];
    IdentLengthOf(name, gap + tail);
    assert t[|name|..] == gap + tail;
    TrimmedOpening(gap, tail);
  }

  lemma IdentNameParses(h: Head, rest: string)
    requires h.IdentHead? && ValidHead(h)
    ensures PropertyName(PropertyText(h, rest)) == Some(h.name)
  {
    var colon := [':'] + rest;
    var tail := Mark(h.optional) + colon;
    var t := h.name + (h.gap + tail);
    IdentTextGroups(h.lead, h.name, h.gap, Mark(h.optional), colon);
    assert t[0] == h.name[0] && IsIdentChar(t[0]);
    TrimmedOpening(h.lead, t);
    assert tail[0] == if h.optional.Some? then '?' else ':';
    IdentParses(h.name, h.gap, tail);
    UnmarkedMark(h.optional, rest);
  }

  lemma NameParses(h: Head, rest: string)
    requires ValidHead(h)
    ensures PropertyName(PropertyText(h, rest)) == Some(h.name)
  {
    if h.LiteralHead? { LiteralNameParses(h, rest); } else { IdentNameParses(h, rest); }
  }

  lemma {:induction false} IdentLengthShape(text: string)
    ensures forall i | 0 <= i < IdentLength(text) :: IsIdentChar(text[i])
  {
    if text != [] && IsIdentChar(text[0]) { IdentLengthShape(text[1..]); }
  }

  lemma LiteralNameShape(f: string) returns (h: Head, rest: string)
    requires PropertyName(f).Some? && StringLiteral(TrimStart(f)).Some?
    ensures ValidHead(h) && h.name == PropertyName(f).value && f == PropertyText(h, rest)
  {
    var lead := TrimStartCuts(f);
    var t := TrimStart(f);
    var q := LiteralShape(t);
    var (name, k) := StringLiteral(t).value;
    var gap := TrimStartCuts(t[k..]);
    var colon := TrimStart(t[k..]);
    h, rest := LiteralHead(lead, q, name, gap), colon[1..];
    assert colon == [':'] + rest;
    assert t == Quoted(q, name) + (gap + colon);
    assert f == lead + (Quoted(q, name) + (gap + colon));
    Regroup(Quoted(q, name), gap, colon);
    Regroup(lead, Quoted(q, name) + gap, colon);
  }

  lemma IdentNameShape(f: string) returns (h: Head, rest: string)
    requires PropertyName(f).Some? && StringLiteral(TrimStart(f)).None?
    ensures ValidHead(h) && h.name == PropertyName(f).value && f == PropertyText(h, rest)
  {
    var lead := TrimStartCuts(f);
    var t := TrimStart(f);
    var n := IdentLength(t);
    IdentLengthShape(t);
    var name := t[..n];
    var gap := TrimStartCuts(t[n..]);
    var tail := TrimStart(t[n..]);
    var optional, colon := None, tail;
    if tail != [] && tail[0] == '?' {
      var after := TrimStartCuts(tail[1..]);
      optional, colon := Some(after), TrimStart(tail[1..]);
      assert tail == ['?'] + tail[1..];
      Regroup(['?'], after, colon);
    } else {
      assert [] + colon == colon;
    }
    assert tail == Mark(optional) + colon;
    h, rest := IdentHead(lead, name, gap, optional), colon[1..];
    assert colon == [':'] + rest;
    assert t == name + (gap + (Mark(optional) + colon));
    IdentTextGroups(lead, name, gap, Mark(optional), colon);
  }

  lemma IdentTextGroups(lead: string, name: string, gap: string, mark: string, colon: string)
    ensures lead + (name + (gap + (mark + colon))) == lead + (name + (gap + mark)) + colon
  {
    Regroup(gap, mark, colon);
    Regroup(name, gap + mark, colon);
    Regroup(lead, name + (gap + mark), colon);
  }

  /** MAIN: the name parser accepts exactly the properties, and returns their name. */
  lemma PropertyNameExactly(f: string, name: string)
    ensures PropertyName(f) == Some(name) <==> HasName(f, name)
  {
    if PropertyName(f) == Some(name) {
      var h, rest;
      if StringLiteral(TrimStart(f)).Some? { h, rest := LiteralNameShape(f); } else { h, rest := IdentNameShape(f); }
      assert ValidHead(h) && h.name == name && f == PropertyText(h, rest);
    }
    if HasName(f, name) {
      var h, rest :| ValidHead(h) && h.name == name && f == PropertyText(h, rest);
      NameParses(h, rest);
    }
  }

  // ---- The method field ----

  lemma ColonAfterHead(h: Head, rest: string)
    requires ValidHead(h) && ':' !in h.name
    ensures IndexOf(PropertyText(h, rest), ':') == Some(|HeadText(h)|)
    ensures PropertyText(h, rest)[|HeadText(h)| + 1..] == rest
  {
    var t := HeadText(h);
    assert ':' !in t by {
      assert ':' !in h.lead && ':' !in h.gap;
      if h.IdentHead? { assert ':' !in Mark(h.optional); }
    }
    assert PropertyText(h, rest) == t + [':'] + rest;
    IndexOfFirst(t, ':', rest);
  }

  lemma MethodIsPlain()
    ensures ':' !in METHOD
  {
  }

  /** The field is a property `method` whose value starts with the literal `m`. */
  ghost predicate IsMethodField(f: string, m: string) {
    exists h, lead, q, rest :: MethodFieldText(f, h, lead, q, m, rest)
  }

  ghost predicate MethodFieldText(f: string, h: Head, lead: string, q: char, m: string, rest: string) {
    && ValidHead(h) && h.name == METHOD && Blank(lead) && IsQuote(q) && LiteralBody(m, q)
    && f == PropertyText(h, lead + (Quoted(q, m) + rest))
  }

  lemma TrimStartTwice(s: string)
    ensures TrimStart(TrimStart(s)) == TrimStart(s)
  {
    var lead := TrimStartCuts(s);
  }

  lemma PropertyOf(h: Head, rest: string)
    requires ValidHead(h) && h.name == METHOD
    ensures Property(PropertyText(h, rest)) == Some((METHOD, TrimStart(rest)))
  {
    MethodIsPlain();
    NameParses(h, rest);
    ColonAfterHead(h, rest);
  }

  lemma HasNameParses(f: string)
    ensures HasName(f, METHOD) <==> Property(f).Some? && Property(f).value.0 == METHOD
  {
    PropertyNameExactly(f, METHOD);
    if HasName(f, METHOD) {
      var h, rest :| ValidHead(h) && h.name == METHOD && f == PropertyText(h, rest);
      PropertyOf(h, rest);
    }
  }

  lemma MethodFieldParses(h: Head, lead: string, q: char, m: string, rest: string)
    requires MethodFieldText(PropertyText(h, lead + (Quoted(q, m) + rest)), h, lead, q, m, rest)
    ensures Property(PropertyText(h, lead + (Quoted(q, m) + rest))) == Some((METHOD, Quoted(q, m) + rest))
    ensures LiteralValue(Quoted(q, m) + rest) == Some(m)
  {
    var value := Quoted(q, m) + rest;
    PropertyOf(h, lead + value);
    assert value[0] == q;
    TrimmedOpening(lead, value);
    LiteralParses(q, m, rest);
  }

  lemma MethodFieldShape(h: Head, rest: string, m: string)
    requires ValidHead(h) && h.name == METHOD && LiteralValue(TrimStart(rest)) == Some(m)
    ensures IsMethodField(PropertyText(h, rest), m)
  {
    TrimStartTwice(rest);
    var value := TrimStart(rest);
    var lead := TrimStartCuts(rest);
    var q := LiteralShape(value);
    var more := value[|m| + 2..];
    assert rest == lead + (Quoted(q, m) + more);
    assert MethodFieldText(PropertyText(h, rest), h, lead, q, m, more);
  }

  lemma MethodFieldExactly(f: string, m: string)
    ensures IsMethodField(f, m) <==> HasName(f, METHOD) && Property(f).Some? && LiteralValue(Property(f).value.1) == Some(m)
  {
    if IsMethodField(f, m) {
      var h, lead, q, rest :| MethodFieldText(f, h, lead, q, m, rest);
      MethodFieldParses(h, lead, q, m, rest);
      assert f == PropertyText(h, lead + (Quoted(q, m) + rest));
    } else if HasName(f, METHOD) {
      var h, rest :| ValidHead(h) && h.name == METHOD && f == PropertyText(h, rest);
      PropertyOf(h, rest);
      if LiteralValue(TrimStart(rest)) == Some(m) { MethodFieldShape(h, rest, m); }
    }
  }

  /** The first field named `method` gives the method. */
  ghost predicate FieldsName(fields: seq<string>, m: string) {
    exists i | 0 <= i < |fields| ::
      IsMethodField(fields[i], m) && forall j | 0 <= j < i :: !HasName(fields[j], METHOD)
  }

  lemma {:induction false} FirstMethodExactly(fields: seq<string>, m: string)
    ensures FirstMethod(fields) == Some(m) <==> FieldsName(fields, m)
  {
    if fields != [] {
      var f, rest := fields[0], fields[1..];
      FirstMethodExactly(rest, m);
      HasNameParses(f);
      MethodFieldExactly(f, m);
      FieldsNameStep(fields, m);
    }
  }

  lemma FieldsNameStep(fields: seq<string>, m: string)
    requires fields != []
    ensures FieldsName(fields, m) <==>
            IsMethodField(fields[0], m) || (!HasName(fields[0], METHOD) && FieldsName(fields[1..], m))
  {
    var rest := fields[1..];
    if !HasName(fields[0], METHOD) && FieldsName(rest, m) {
      var i :| 0 <= i < |rest| && IsMethodField(rest[i], m) && forall j | 0 <= j < i :: !HasName(rest[j], METHOD);
      assert fields[i + 1] == rest[i];
      forall j | 0 <= j < i + 1 ensures !HasName(fields[j], METHOD) { if j > 0 { assert fields[j] == rest[j - 1]; } }
    }
    if FieldsName(fields, m) {
      var i :| 0 <= i < |fields| && IsMethodField(fields[i], m) && forall j | 0 <= j < i :: !HasName(fields[j], METHOD);
      if i > 0 {
        assert rest[i - 1] == fields[i];
        forall j | 0 <= j < i - 1 ensures !HasName(rest[j], METHOD) { assert rest[j] == fields[j + 1]; }
        assert FieldsName(rest, m);
      }
    }
  }

  // ---- The method of an arm ----

  /** The first span of braces has a field `method`, the first of that name, whose value is `m`. */
  ghost predicate NamesMethod(arm: string, m: string) {
    exists o: nat, c: nat :: o < c < |arm| && FirstSpan(arm, Some((o, c))) && FieldsName(Split(arm[o + 1..c], {','}), m)
  }

  /** MAIN: the method found in an arm is exactly the one its first `method` field names. */
  lemma MethodOfArmExactly(arm: string, m: string)
    ensures MethodOfArm(arm) == Some(m) <==> NamesMethod(arm, m)
  {
    var r := BraceSpan(arm, 0, Start, None);
    BraceSpanIsFirst(arm);
    if r.Some? {
      var (open, close) := r.value;
      FirstMethodExactly(Split(arm[open + 1..close], {','}), m);
    }
    if NamesMethod(arm, m) {
      var o: nat, c: nat :| o < c < |arm| && FirstSpan(arm, Some((o, c))) && FieldsName(Split(arm[o + 1..c], {','}), m);
      FirstSpanUnique(arm, r, Some((o, c)));
    }
  }

  /** The arm is for one of the named methods; the empty name is no method. */
  ghost predicate Experimental(arm: string, methods: set<string>) {
    exists m :: m in methods && m != "" && NamesMethod(arm, m)
  }

  lemma StableExactly(arm: string, methods: set<string>)
    ensures Stable(arm, methods) <==> !Experimental(arm, methods)
  {
    forall m ensures MethodOfArm(arm) == Some(m) <==> NamesMethod(arm, m) { MethodOfArmExactly(arm, m); }
  }

  // ---- Arms as they are generated ----

  /** Braces around pieces in any layout, separated by commas, with blank pieces (a trailing comma) allowed. */
  ghost function ArmText(pieces: seq<string>): string { Braced(Join(pieces, [','])) }

  /** A piece that stays within its braces. */
  ghost predicate ArmPiece(p: string) { Piece(p, {','}) && Balanced(Start, p) }

  lemma {:induction false} BalancedAppend(s: Scan, a: string, b: string)
    ensures Balanced(s, a + b) <==> Balanced(s, a) && Balanced(Scanned(s, a), b)
    decreases |a|
  {
    if a == [] {
      assert a + b == b;
    } else {
      assert (a + b)[0] == a[0] && (a + b)[1..] == a[1..] + b;
      BalancedAppend(Observed(s, a[0]), a[1..], b);
    }
  }

  lemma {:induction false} AlikeBalanced(s: Scan, t: Scan, text: string)
    requires Alike(s, t)
    ensures Balanced(s, text) <==> Balanced(t, text)
    decreases |text|
  {
    if text != [] {
      AlikeStep(s, t, text[0]);
      AlikeBalanced(Observed(s, text[0]), Observed(t, text[0]), text[1..]);
    }
  }

  lemma PieceThenComma(p: string, s: Scan)
    requires ArmPiece(p) && Fresh(s)
    ensures Balanced(s, p + [',']) && Fresh(Scanned(s, p + [',']))
  {
    AlikeBalanced(s, Start, p);
    AlikeTexts(s, Start, p, {});
    ScannedSound(s, p);
    BalancedAppend(s, p, [',']);
    ScannedAppend(s, p, [',']);
    var t := Scanned(s, p);
    DelimiterRestarts(t, ',');
    assert [','][1..] == [] && Scanned(t, [',']) == Observed(t, ',');
    assert Balanced(t, [',']) by { assert Balanced(Observed(t, ','), []); }
  }

  lemma {:induction false} InnerIsBalanced(pieces: seq<string>, s: Scan)
    requires (forall p | p in pieces :: ArmPiece(p)) && Fresh(s)
    ensures Balanced(s, Join(pieces, [','])) && Top(Scanned(s, Join(pieces, [','])))
    decreases |pieces|
  {
    if pieces != [] {
      var p := pieces[0];
      assert p in pieces;
      if |pieces| == 1 {
        AlikeBalanced(s, Start, p);
        AlikeTexts(s, Start, p, {});
      } else {
        var rest := Join(pieces[1..], [',']);
        PieceThenComma(p, s);
        InnerIsBalanced(pieces[1..], Scanned(s, p + [',']));
        BalancedAppend(s, p + [','], rest);
        ScannedAppend(s, p + [','], rest);
      }
    }
  }

  lemma ArmFields(pieces: seq<string>)
    requires forall p | p in pieces :: ArmPiece(p)
    ensures MethodOfArm(ArmText(pieces)) == FirstMethod(AllKept(pieces))
  {
    var inner := Join(pieces, [',']);
    InnerIsBalanced(pieces, Start);
    OnlyOuterBraces(inner);
    assert Braced(inner)[1..|inner| + 1] == inner;
    SplitPieces(pieces, ',', {','});
  }

  /** MAIN: an arm in braces is for `m` exactly when the first of its fields named `method` has the value `m`. */
  lemma ArmTextExactly(pieces: seq<string>, m: string)
    requires forall p | p in pieces :: ArmPiece(p)
    ensures MethodOfArm(ArmText(pieces)) == Some(m) <==> FieldsName(AllKept(pieces), m)
  {
    ArmFields(pieces);
    FirstMethodExactly(AllKept(pieces), m);
  }

  /** The method field as the generator writes it. */
  ghost function MethodField(m: string): string {
    Quoted('\"', METHOD) + ([':'] + ([' '] + Quoted('\"', m)))
  }

  /** A method name that needs no escapes. */
  predicate PlainName(m: string) { '\"' !in m && '\\' !in m }

  lemma {:induction false} PlainIsLiteral(m: string, q: char)
    requires q !in m && '\\' !in m
    ensures LiteralBody(m, q)
  {
    if m != [] { PlainIsLiteral(m[1..], q); }
  }

  lemma MethodFieldNames(m: string)
    requires PlainName(m)
    ensures IsMethodField(MethodField(m), m)
  {
    PlainIsLiteral(METHOD, '\"');
    PlainIsLiteral(m, '\"');
    var h, name, value := LiteralHead([], '\"', METHOD, []), Quoted('\"', METHOD), Quoted('\"', m);
    assert [] + (name + []) == name && value + [] == value;
    assert MethodFieldText(MethodField(m), h, [' '], '\"', m, []);
  }

  lemma KeptFirst(p: string, fields: seq<string>, m: string)
    ensures Trim(p) != [] && IsMethodField(Trim(p), m) ==> FieldsName(Kept(p) + fields, m)
    ensures !HasName(Trim(p), METHOD) && FieldsName(fields, m) ==> FieldsName(Kept(p) + fields, m)
  {
    var all := Kept(p) + fields;
    if Trim(p) == [] {
      assert all == fields;
    } else {
      assert all[0] == Trim(p) && all[1..] == fields;
      FieldsNameStep(all, m);
    }
  }

  lemma {:induction false} KeptFieldsName(pieces: seq<string>, i: nat, m: string)
    requires i < |pieces| && Trim(pieces[i]) != [] && IsMethodField(Trim(pieces[i]), m)
    requires forall j | 0 <= j < i :: !HasName(Trim(pieces[j]), METHOD)
    ensures FieldsName(AllKept(pieces), m)
  {
    var p, rest := pieces[0], pieces[1..];
    assert AllKept(pieces) == Kept(p) + AllKept(rest);
    KeptFirst(p, AllKept(rest), m);
    if i > 0 {
      assert rest[i - 1] == pieces[i] && !HasName(Trim(p), METHOD);
      forall j | 0 <= j < i - 1 ensures !HasName(Trim(rest[j]), METHOD) { assert rest[j] == pieces[j + 1]; }
      KeptFieldsName(rest, i - 1, m);
    }
  }

  /**
    MAIN: an arm whose first field named `method` is `"method": "m"` is removed exactly
    when `m` is one of the methods and not empty.
   */
  lemma GeneratedArmRemoved(pieces: seq<string>, i: nat, m: string, methods: set<string>)
    requires (forall p | p in pieces :: ArmPiece(p)) && PlainName(m)
    requires i < |pieces| && Trim(pieces[i]) == MethodField(m)
    requires forall j | 0 <= j < i :: !HasName(Trim(pieces[j]), METHOD)
    ensures MethodOfArm(ArmText(pieces)) == Some(m)
    ensures !Stable(ArmText(pieces), methods) <==> m != "" && m in methods
  {
    MethodFieldNames(m);
    KeptFieldsName(pieces, i, m);
    ArmTextExactly(pieces, m);
  }

  // ---- Arms that escape ----

  lemma {:induction false} KeptFrom(pieces: seq<string>, f: string)
    requires f in AllKept(pieces)
    ensures exists p | p in pieces :: f == Trim(p)
  {
    if f in Kept(pieces[0]) { assert pieces[0] in pieces; } else { KeptFrom(pieces[1..], f); }
  }

  /** MAIN: an arm in which no field is named `method` stays, whatever the methods are. */
  lemma UnnamedArmStays(pieces: seq<string>, methods: set<string>)
    requires forall p | p in pieces :: ArmPiece(p) && !HasName(Trim(p), METHOD)
    ensures Stable(ArmText(pieces), methods)
  {
    ArmFields(pieces);
    var fields := AllKept(pieces);
    if FirstMethod(fields).Some? {
      var m := FirstMethod(fields).value;
      FirstMethodExactly(fields, m);
      var i :| 0 <= i < |fields| && IsMethodField(fields[i], m);
      MethodFieldExactly(fields[i], m);
      KeptFrom(pieces, fields[i]);
    }
  }

  /** A field that starts with a comment has no name. */
  lemma CommentHasNoName(f: string, name: string)
    requires f != [] && f[0] == '/'
    ensures !HasName(f, name)
  {
    PropertyNameExactly(f, name);
    assert TrimStart(f) == f;
  }

  // ---- Reading what the generator writes ----

  /** Reading `text` takes the scanner from `s` to `t` without a cut or a stray brace. */
  ghost predicate Reads(s: Scan, text: string, t: Scan) {
    Uncut(s, text, {','}) && Balanced(s, text) && Scanned(s, text) == t
  }

  lemma ReadsAppend(s: Scan, a: string, t: Scan, b: string, u: Scan)
    requires Reads(s, a, t) && Reads(t, b, u)
    ensures Reads(s, a + b, u)
  {
    UncutAppend(s, a, b, {','});
    BalancedAppend(s, a, b);
    ScannedAppend(s, a, b);
  }

  lemma ReadsChar(s: Scan, c: char)
    requires Ignoring(s) || (c != ',' && c != '}')
    ensures Reads(s, [c], Observed(s, c))
  {
    var t := Observed(s, c);
    assert [c][1..] == [] && Uncut(t, [], {','}) && Balanced(t, []) && Scanned(t, []) == t;
  }

  function LastOf(text: string, otherwise: Option<char>): Option<char> {
    if text == [] then otherwise else Some(text[|text| - 1])
  }

  lemma {:induction false} ReadsInside(s: Scan, text: string)
    requires s.delim.Some? && !s.escape && !s.block && !s.line && s.delim.value !in text && '\\' !in text
    ensures Reads(s, text, s.(prev := LastOf(text, s.prev)))
    decreases |text|
  {
    if text != [] {
      var t := Observed(s, text[0]);
      ReadsChar(s, text[0]);
      ReadsInside(t, text[1..]);
      ReadsAppend(s, [text[0]], t, text[1..], t.(prev := LastOf(text[1..], t.prev)));
      assert text == [text[0]] + text[1..];
    }
  }

  lemma ReadsQuoted(s: Scan, q: char, m: string)
    requires Top(s) && Sound(s) && IsQuote(q) && q !in m && '\\' !in m
    ensures Reads(s, Quoted(q, m), s.(prev := Some(q)))
  {
    var a := Observed(s, q);
    var b := a.(prev := LastOf(m, a.prev));
    ReadsChar(s, q);
    ReadsInside(a, m);
    ReadsChar(b, q);
    ReadsAppend(s, [q], a, m, b);
    ReadsAppend(s, [q] + m, b, [q], s.(prev := Some(q)));
  }

  lemma ReadsMethodField(s: Scan, m: string)
    requires Top(s) && Sound(s) && PlainName(m)
    ensures Reads(s, MethodField(m), s.(prev := Some('\"')))
  {
    var name := Quoted('\"', METHOD);
    ReadsQuoted(s, '\"', METHOD);
    var a := s.(prev := Some('\"'));
    ReadsChar(a, ':');
    var b := s.(prev := Some(':'));
    ReadsChar(b, ' ');
    var c := s.(prev := Some(' '));
    ReadsQuoted(c, '\"', m);
    ReadsAppend(b, [' '], c, Quoted('\"', m), a);
    ReadsAppend(a, [':'], b, [' '] + Quoted('\"', m), a);
    ReadsAppend(s, name, a, [':'] + ([' '] + Quoted('\"', m)), a);
  }

  /** A comment that ends where it seems to. */
  predicate PlainComment(d: string) { '*' !in d && (d != [] ==> d[0] != '/') }

  ghost function Comment(d: string): string { ['/', '*'] + d + ['*', '/'] }

  lemma {:induction false} ReadsInComment(s: Scan, d: string)
    requires s.block && !s.line && '*' !in d && (d != [] ==> !(s.prev == Some('*') && d[0] == '/'))
    ensures Reads(s, d, s.(prev := LastOf(d, s.prev)))
    decreases |d|
  {
    if d != [] {
      var t := Observed(s, d[0]);
      ReadsChar(s, d[0]);
      ReadsInComment(t, d[1..]);
      ReadsAppend(s, [d[0]], t, d[1..], t.(prev := LastOf(d[1..], t.prev)));
      assert d == [d[0]] + d[1..];
    }
  }

  lemma ReadsComment(s: Scan, d: string)
    requires Top(s) && Sound(s) && s.prev != Some('/') && PlainComment(d)
    ensures Reads(s, Comment(d), s.(prev := None))
  {
    var a := Observed(s, '/');
    var b := Observed(a, '*');
    var c := b.(prev := LastOf(d, b.prev));
    var e := Observed(c, '*');
    ReadsChar(s, '/'); ReadsChar(a, '*'); ReadsInComment(b, d); ReadsChar(c, '*'); ReadsChar(e, '/');
    ReadsAppend(s, ['/'], a, ['*'], b);
    assert ['/'] + ['*'] == ['/', '*'];
    ReadsAppend(s, ['/', '*'], b, d, c);
    ReadsAppend(c, ['*'], e, ['/'], s.(prev := None));
    assert ['*'] + ['/'] == ['*', '/'];
    ReadsAppend(s, ['/', '*'] + d, c, ['*', '/'], s.(prev := None));
  }

  /** MAIN: a plain method field is a piece of an arm, and so is one behind a comment. */
  lemma MethodPieces(d: string, m: string)
    requires PlainComment(d) && PlainName(m)
    ensures ArmPiece([' '] + MethodField(m)) && Trim([' '] + MethodField(m)) == MethodField(m)
    ensures ArmPiece(Comment(d) + ([' '] + MethodField(m)))
  {
    var start, blank := Start, Start.(prev := Some(' '));
    ReadsChar(start, ' ');
    ReadsMethodField(blank, m);
    ReadsAppend(start, [' '], blank, MethodField(m), Start.(prev := Some('\"')));
    ReadsComment(start, d);
    ReadsAppend(start, Comment(d), start, [' '] + MethodField(m), Start.(prev := Some('\"')));
    assert MethodField(m)[0] == '\"' && MethodField(m)[|MethodField(m)| - 1] == '\"';
    assert [' '] + MethodField(m) + [] == [' '] + MethodField(m);
    TrimMargins([' '], MethodField(m), []);
  }

  /** MAIN: an arm whose method field stands behind a comment is kept even if its method is experimental. */
  lemma CommentedArmEscapes(d: string, m: string, methods: set<string>)
    requires PlainComment(d) && PlainName(m)
    ensures Stable(ArmText([Comment(d) + ([' '] + MethodField(m))]), methods)
    ensures !Stable(ArmText([[' '] + MethodField(m)]), methods) <==> m != "" && m in methods
  {
    var p := Comment(d) + ([' '] + MethodField(m));
    MethodPieces(d, m);
    assert p[0] == '/' && p[|p| - 1] == '\"' && p == [] + p + [];
    TrimMargins([], p, []);
    CommentHasNoName(p, METHOD);
    UnnamedArmStays([p], methods);
    GeneratedArmRemoved([[' '] + MethodField(m)], 0, m, methods);
  }
}
