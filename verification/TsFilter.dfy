/**
  Removing experimental arms from a generated TypeScript union alias, and the type
  imports that only those arms used.
 */
module TsFilter {
  import opened Text
  import opened TsScanner
  import opened TsArms

  // ---- Filtering lists ----

  function Keep<T>(xs: seq<T>, p: T -> bool): seq<T> {
    if xs == [] then [] else (if p(xs[0]) then [xs[0]] else []) + Keep(xs[1..], p)
  }

  lemma {:induction false} KeepAppend<T>(xs: seq<T>, ys: seq<T>, p: T -> bool)
    ensures Keep(xs + ys, p) == Keep(xs, p) + Keep(ys, p)
  {
    if xs == [] {
      assert xs + ys == ys;
    } else {
      assert (xs + ys)[0] == xs[0] && (xs + ys)[1..] == xs[1..] + ys;
      KeepAppend(xs[1..], ys, p);
      Regroup(if p(xs[0]) then [xs[0]] else [], Keep(xs[1..], p), Keep(ys, p));
    }
  }

  lemma {:induction false} KeepMembers<T>(xs: seq<T>, p: T -> bool)
    ensures forall x | x in Keep(xs, p) :: x in xs && p(x)
    ensures forall x | x in xs && p(x) :: x in Keep(xs, p)
  {
    if xs != [] { KeepMembers(xs[1..], p); }
  }

  lemma {:induction false} KeepAll<T>(xs: seq<T>, p: T -> bool)
    requires forall x | x in xs :: p(x)
    ensures Keep(xs, p) == xs
  {
    if xs != [] {
      assert xs[0] in xs;
      KeepAll(xs[1..], p);
      assert xs == [xs[0]] + xs[1..];
    }
  }

  lemma KeepTwice<T>(xs: seq<T>, p: T -> bool)
    ensures Keep(Keep(xs, p), p) == Keep(xs, p)
  {
    KeepMembers(xs, p);
    KeepAll(Keep(xs, p), p);
  }

  lemma KeepStep<T>(xs: seq<T>, i: nat, p: T -> bool)
    requires i < |xs|
    ensures Keep(xs[i..], p) == (if p(xs[i]) then [xs[i]] else []) + Keep(xs[i + 1..], p)
  {
    assert xs[i..][0] == xs[i] && xs[i..][1..] == xs[i + 1..];
  }

  // ---- Arms ----

  function StableArms(arms: seq<string>, methods: set<string>): seq<string> {
    Keep(arms, a => Stable(a, methods))
  }

  // ---- Imports ----

  const IMPORT: string := "import type {"

  /** The single type a line imports. */
  function ImportedType(line: string): Option<string> {
    var l := Trim(line);
    if !(IMPORT <= l) then None
    else
      match SplitOnce(l[|IMPORT|..], "} from ")
      case None => None
      case Some(name) =>
        var t := Trim(name);
        if t == [] || ',' in t || Occurs(" as ", t) then None else Some(t)
  }

  /** The text before the first occurrence of `pat`. */
  function SplitOnce(text: string, pat: string): Option<string> {
    if pat <= text then Some([])
    else if text == [] then None
    else match SplitOnce(text[1..], pat) case None => None case Some(t) => Some([text[0]] + t)
  }

  predicate Used(line: string, scope: string) {
    match ImportedType(line)
    case None => true
    case Some(t) => Occurs(t, scope)
  }

  function UsedLines(lines: seq<string>, scope: string): seq<string> {
    Keep(lines, l => Used(l, scope))
  }

  function StripCr(line: string): string {
    if line != [] && line[|line| - 1] == '\r' then line[..|line| - 1] else line
  }

  /** Rust's `str::lines`. */
  function Lines(text: string): seq<string> {
    if text == [] then []
    else
      match IndexOf(text, '\n')
      case None => [text]
      case Some(i) => [StripCr(text[..i])] + Lines(text[i + 1..])
  }

  function Newline(text: string): string {
    if text != [] && text[|text| - 1] == '\n' then ['\n'] else []
  }

  function Pruned(content: string, scope: string): string {
    Join(UsedLines(Lines(content), scope), ['\n']) + Newline(content)
  }

  method PruneUnusedTypeImports(content: string, scope: string) returns (rewritten: string)
    ensures rewritten == Pruned(content, scope)
  {
    var all := Lines(content);
    var lines: seq<string> := [];
    ghost var used := (l: string) => Used(l, scope);
    ghost var todo := Keep(all, used);
    assert all[0..] == all && todo == UsedLines(all, scope);
    for i := 0 to |all|
      invariant todo == Keep(all[i..], used)
      invariant UsedLines(all, scope) == lines + todo
    {
      KeepStep(all, i, used);
      todo := Keep(all[i + 1..], used);
      var kept := if Used(all[i], scope) then [all[i]] else [];
      Regroup(lines, kept, todo);
      lines := lines + kept;
    }
    assert all[|all|..] == [] && lines + [] == lines;
    rewritten := Join(lines, ['\n']) + Newline(content);
  }

  // ---- The alias ----

  /** Up to and including the first `=`; the body; from the last `;` on. */
  function SplitAlias(content: string): Option<(string, string, string)> {
    match (IndexOf(content, '='), LastIndexOf(content, ';'))
    case (Some(eq), Some(semi)) =>
      if semi <= eq then None else Some((content[..eq + 1], content[eq + 1..semi], content[semi..]))
    case _ => None
  }

  function FilteredBody(body: string, methods: set<string>): string {
    Join(StableArms(Split(body, {'|'}), methods), Separator(true, '|'))
  }

  function FilterClientRequest(content: string, methods: set<string>): string {
    match SplitAlias(content)
    case None => content
    case Some((prefix, body, suffix)) =>
      var newBody := FilteredBody(body, methods);
      var rewritten := prefix + newBody + suffix;
      match SplitAlias(rewritten)
      case Some((_, scope, _)) => Pruned(rewritten, scope)
      case None => Pruned(rewritten, newBody)
  }

  // ---- The alias survives the rewrite ----

  lemma SplitAliasShape(a: string, body: string, end: string)
    requires '=' !in a && ';' !in end
    ensures SplitAlias(a + ['='] + body + ([';'] + end)) == Some((a + ['='], body, [';'] + end))
  {
    var t := a + ['='] + body + ([';'] + end);
    assert t == a + ['='] + (body + [';'] + end);
    IndexOfFirst(a, '=', body + [';'] + end);
    assert t == (a + ['='] + body) + [';'] + end;
    LastIndexOfLast(a + ['='] + body, ';', end);
  }

  // ---- Occurrences across separators ----

  lemma {:induction false} OccursWithin(pat: string, x: string, y: string)
    requires Occurs(pat, x) || Occurs(pat, y)
    ensures Occurs(pat, x + y)
  {
    if x == [] {
      assert x + y == y;
    } else {
      assert (x + y)[1..] == x[1..] + y;
      if !(pat <= x) { OccursWithin(pat, x[1..], y); }
    }
  }

  lemma PrefixStops(pat: string, x: string, c: char, y: string)
    ensures pat <= x + [c] + y ==> pat <= x || c in pat
  {
    if pat <= x + [c] + y && |pat| > |x| { assert pat[|x|] == (x + [c] + y)[|x|]; }
  }

  /** A pattern without `c` lies on one side of a `c`. */
  lemma {:induction false} OccursBesides(pat: string, x: string, c: char, y: string)
    requires c !in pat && pat != [] && Occurs(pat, x + [c] + y)
    ensures Occurs(pat, x) || Occurs(pat, y)
  {
    var t := x + [c] + y;
    if x == [] {
      PrefixStops(pat, x, c, y);
      assert t[1..] == y;
    } else if pat <= t {
      PrefixStops(pat, x, c, y);
    } else {
      assert t[1..] == x[1..] + [c] + y;
      OccursBesides(pat, x[1..], c, y);
    }
  }

  // ---- Arms are slices of the body ----

  /** `part` is a contiguous piece of `text`. */
  ghost predicate Slice(part: string, text: string) {
    exists x, y :: text == x + part + y
  }

  lemma SliceOccurs(pat: string, part: string, text: string)
    requires Slice(part, text) && Occurs(pat, part)
    ensures Occurs(pat, text)
  {
    var x, y :| text == x + part + y;
    OccursWithin(pat, x, part);
    OccursWithin(pat, x + part, y);
  }

  lemma KeptIsSlice(before: string, piece: string, text: string, p: string)
    requires p in Kept(piece)
    ensures Slice(p, before + piece + text)
  {
    var lead, tail := TrimDecomposes(piece);
    assert before + piece + text == (before + lead) + p + (tail + text);
  }

  lemma {:induction false} CutsSlices(text: string, s: Scan, delims: set<char>, piece: string, before: string, p: string)
    requires p in Cuts(text, s, delims, piece)
    ensures Slice(p, before + piece + text)
    decreases |text|
  {
    if p in Kept(piece) {
      KeptIsSlice(before, piece, text, p);
    } else if text != [] && Top(s) && text[0] in delims {
      CutsSlices(text[1..], Observed(s, text[0]), delims, [], before + piece + [text[0]], p);
      assert before + piece + [text[0]] + [] + text[1..] == before + piece + text;
    } else if text != [] {
      CutsSlices(text[1..], Observed(s, text[0]), delims, piece + [text[0]], before, p);
      assert before + (piece + [text[0]]) + text[1..] == before + piece + text;
    }
  }

  lemma ArmIsSlice(body: string, delims: set<char>, p: string)
    requires p in Split(body, delims)
    ensures Slice(p, body)
  {
    CutsSlices(body, Start, delims, [], [], p);
    assert [] + [] + body == body;
  }

  /** Joining arms that do not contain the import marker does not create one. */
  lemma {:induction false} JoinAddsNoImport(arms: seq<string>)
    requires forall a | a in arms :: !Occurs(IMPORT, a)
    ensures !Occurs(IMPORT, Join(arms, Separator(true, '|')))
  {
    if |arms| > 1 {
      var rest := Join(arms[1..], Separator(true, '|'));
      JoinAddsNoImport(arms[1..]);
      assert Join(arms, Separator(true, '|')) == (arms[0] + [' ']) + ['|'] + ([' '] + rest);
      if Occurs(IMPORT, (arms[0] + [' ']) + ['|'] + ([' '] + rest)) {
        OccursBesides(IMPORT, arms[0] + [' '], '|', [' '] + rest);
        NoTrailingSpace(arms[0]);
        NoLeadingSpace(rest);
      }
    }
  }

  lemma NoLeadingSpace(x: string)
    ensures Occurs(IMPORT, [' '] + x) ==> Occurs(IMPORT, x)
  {
    assert ([' '] + x)[1..] == x;
    assert IMPORT[0] == 'i' && ([' '] + x)[0] == ' ';
  }

  lemma {:induction false} NoTrailingSpace(x: string)
    ensures Occurs(IMPORT, x + [' ']) ==> Occurs(IMPORT, x)
  {
    assert |IMPORT| == 13;
    if x == [] {
      assert (x + [' '])[1..] == [];
    } else {
      assert (x + [' '])[1..] == x[1..] + [' '];
      NoTrailingSpace(x[1..]);
      assert IMPORT[12] == '{' && (x + [' '])[|x|] == ' ';
    }
  }

  // ---- Lines ----

  /** A line that can be written and read back: no line ends inside. */
  predicate IsLine(h: string) { '\n' !in h && '\r' !in h }

  ghost function Unlines(hs: seq<string>): string {
    if hs == [] then [] else hs[0] + ['\n'] + Unlines(hs[1..])
  }

  lemma FirstLine(h: string, rest: string)
    requires IsLine(h)
    ensures Lines(h + ['\n'] + rest) == [h] + Lines(rest)
  {
    var all := h + ['\n'] + rest;
    IndexOfFirst(h, '\n', rest);
    assert all[..|h|] == h && all[|h| + 1..] == rest;
  }

  lemma {:induction false} LinesOfUnlines(hs: seq<string>, t: string)
    requires forall h | h in hs :: IsLine(h)
    ensures Lines(Unlines(hs) + t) == hs + Lines(t)
  {
    if hs == [] {
      assert Unlines(hs) + t == t;
    } else {
      var rest := Unlines(hs[1..]) + t;
      Regroup(hs[0] + ['\n'], Unlines(hs[1..]), t);
      assert hs[0] in hs;
      FirstLine(hs[0], rest);
      LinesOfUnlines(hs[1..], t);
      Regroup([hs[0]], hs[1..], Lines(t));
      assert hs == [hs[0]] + hs[1..];
    }
  }

  lemma {:induction false} JoinOfLines(ks: seq<string>, ls: seq<string>)
    requires ls != []
    ensures Join(ks + ls, ['\n']) == Unlines(ks) + Join(ls, ['\n'])
  {
    if ks == [] {
      assert ks + ls == ls;
    } else {
      assert (ks + ls)[0] == ks[0] && (ks + ls)[1..] == ks[1..] + ls;
      JoinOfLines(ks[1..], ls);
    }
  }

  lemma JoinedFirst(first: string, ls: seq<string>, tail: string, rest: string)
    requires ls != [] && Join(ls, ['\n']) + tail == rest
    ensures Join([first] + ls, ['\n']) + tail == first + ['\n'] + rest
  {
    assert ([first] + ls)[1..] == ls;
    Regroup(first + ['\n'], Join(ls, ['\n']), tail);
  }

  /** Writing back the lines of a text without carriage returns changes nothing. */
  lemma {:induction false} JoinUndoesLines(t: string)
    requires t != [] && '\r' !in t
    ensures Lines(t) != [] && Join(Lines(t), ['\n']) + Newline(t) == t
    decreases |t|
  {
    match IndexOf(t, '\n')
    case None =>
    case Some(i) =>
      var first, rest := t[..i], t[i + 1..];
      assert t == first + ['\n'] + rest;
      assert StripCr(first) == first;
      if rest == [] {
        assert Lines(t) == [first];
      } else {
        JoinUndoesLines(rest);
        assert Newline(t) == Newline(rest);
        JoinedFirst(first, Lines(rest), Newline(rest), rest);
      }
  }

  lemma SliceInTail(p: string, x: string, t: string)
    requires Slice(p, t)
    ensures Slice(p, x + t)
  {
    var a, b :| t == a + p + b;
    Regroup(x, a + p, b); Regroup(x, a, p);
    assert x + t == (x + a) + p + b;
  }

  lemma SliceInHead(p: string, y: string)
    ensures Slice(p, p + y)
  {
    assert p + y == [] + p + y;
  }

  lemma StrippedIsSlice(t: string, i: nat)
    requires i <= |t|
    ensures Slice(StripCr(t[..i]), t)
  {
    var first := StripCr(t[..i]);
    assert first == t[..|first|];
    SliceInHead(first, t[|first|..]);
    assert t == first + t[|first|..];
  }

  lemma SliceOfSuffix(p: string, t: string, i: nat)
    requires i <= |t| && Slice(p, t[i..])
    ensures Slice(p, t)
  {
    SliceInTail(p, t[..i], t[i..]);
    assert t == t[..i] + t[i..];
  }

  lemma {:induction false} LineIsSlice(t: string, line: string)
    requires line in Lines(t)
    ensures Slice(line, t)
    decreases |t|
  {
    match IndexOf(t, '\n')
    case None => SliceInHead(t, []); assert t + [] == t;
    case Some(i) =>
      if line in Lines(t[i + 1..]) {
        LineIsSlice(t[i + 1..], line);
        SliceOfSuffix(line, t, i + 1);
      } else {
        StrippedIsSlice(t, i);
      }
  }

  /** A text without the import marker imports nothing, so all its lines stay. */
  lemma LinesWithoutImports(t: string, scope: string)
    requires !Occurs(IMPORT, t)
    ensures UsedLines(Lines(t), scope) == Lines(t)
  {
    forall line | line in Lines(t) ensures Used(line, scope) {
      LineIsSlice(t, line);
      NotAnImport(line, t);
    }
    KeepAll(Lines(t), l => Used(l, scope));
  }

  lemma NotAnImport(line: string, t: string)
    requires Slice(line, t) && !Occurs(IMPORT, t)
    ensures ImportedType(line).None?
  {
    var lead, tail := TrimDecomposes(line);
    assert Slice(Trim(line), line);
    if IMPORT <= Trim(line) {
      assert Occurs(IMPORT, Trim(line));
      SliceOccurs(IMPORT, Trim(line), line);
      SliceOccurs(IMPORT, line, t);
    }
  }

  // ---- Which lines import a type ----

  const FROM: string := "} from "

  /** The line is `import type { name } from ...` for one name: no list, no renaming. */
  ghost predicate Imports(line: string, name: string) {
    exists lead, gap, gap', tail ::
      && Blank(lead) && Blank(gap) && Blank(gap') && !Blank(tail)
      && line == lead + ("import type {" + (gap + name + gap') + "} from ") + tail
      && !Slice("} from ", gap + name + gap')
      && Trimmed(name) && ',' !in name && !Slice(" as ", name)
  }

  lemma {:induction false} OccursExactly(pat: string, text: string)
    ensures Occurs(pat, text) <==> Slice(pat, text)
  {
    if Slice(pat, text) {
      var x, y :| text == x + pat + y;
      OccursHead(pat, y);
      OccursWithin(pat, x, pat + y);
      Regroup(x, pat, y);
    }
    if Occurs(pat, text) { OccursAt(pat, text); }
  }

  lemma OccursHead(pat: string, y: string)
    ensures Occurs(pat, pat + y)
  {
  }

  lemma {:induction false} OccursAt(pat: string, text: string)
    requires Occurs(pat, text)
    ensures Slice(pat, text)
  {
    if pat <= text {
      SliceInHead(pat, text[|pat|..]);
      assert text == pat + text[|pat|..];
    } else {
      OccursAt(pat, text[1..]);
      SliceOfSuffix(pat, text, 1);
    }
  }

  /** A mark whose first character does not come again in it. */
  ghost predicate IsMark(pat: string) { pat != [] && forall i | 0 < i < |pat| :: pat[i] != pat[0] }

  lemma MarkStartsOnce(pat: string, mid: string, tail: string)
    requires IsMark(pat) && mid != [] && !Occurs(pat, mid)
    ensures !(pat <= mid + (pat + tail))
  {
    var all := mid + (pat + tail);
    assert all[|mid|] == pat[0];
    assert |pat| <= |mid| ==> all[..|pat|] == mid[..|pat|];
  }

  /** The text before the first mark. */
  lemma {:induction false} SplitOnceRead(mid: string, pat: string, tail: string)
    requires IsMark(pat) && !Occurs(pat, mid)
    ensures SplitOnce(mid + (pat + tail), pat) == Some(mid)
  {
    var all := mid + (pat + tail);
    if mid == [] {
      assert all == pat + tail;
    } else {
      MarkStartsOnce(pat, mid, tail);
      assert all[0] == mid[0] && all[1..] == mid[1..] + (pat + tail);
      SplitOnceRead(mid[1..], pat, tail);
      assert mid == [mid[0]] + mid[1..];
    }
  }

  lemma {:induction false} SplitOnceShape(text: string, pat: string) returns (mid: string, tail: string)
    requires pat != [] && SplitOnce(text, pat).Some?
    ensures SplitOnce(text, pat) == Some(mid) && text == mid + (pat + tail) && !Occurs(pat, mid)
  {
    if pat <= text {
      mid, tail := [], text[|pat|..];
      assert text == [] + (pat + tail);
    } else {
      var m;
      m, tail := SplitOnceShape(text[1..], pat);
      mid := [text[0]] + m;
      assert text == [text[0]] + text[1..] && mid[1..] == m;
      Regroup([text[0]], m, pat + tail);
      assert pat <= mid ==> pat <= text;
    }
  }

  lemma NotBlank(tail: string)
    ensures Blank(tail) <==> TrimEnd(tail) == []
  {
    var end := TrimEndCuts(tail);
    assert TrimEnd(tail) == [] ==> tail == end;
    if Blank(tail) {
      TrimEndMargin([], tail);
      assert [] + tail == tail;
    }
  }

  /** Trimming a text that starts with a mark and whose last part is not blank. */
  lemma TrimAround(lead: string, front: string, tail: string)
    requires Blank(lead) && front != [] && !IsSpace(front[0]) && !Blank(tail)
    ensures Trim(lead + front + tail) == front + TrimEnd(tail)
  {
    Regroup(lead, front, tail);
    TrimStartMargin(lead, front + tail);
    NotBlank(tail);
    var end := TrimEndCuts(tail);
    var t := TrimEnd(tail);
    Regroup(front, t, end);
    assert (front + t)[|front + t| - 1] == t[|t| - 1];
    TrimEndMargin(front + t, end);
  }

  lemma AfterMark(a: string, mid: string, b: string, t: string)
    ensures a <= a + mid + b + t && (a + mid + b + t)[|a|..] == mid + (b + t)
  {
  }

  /** Such a line is read as an import of that name. */
  lemma ImportRead(line: string, name: string)
    requires Imports(line, name)
    ensures ImportedType(line) == Some(name)
  {
    var lead, gap, gap', tail :|
      && Blank(lead) && Blank(gap) && Blank(gap') && !Blank(tail)
      && line == lead + ("import type {" + (gap + name + gap') + "} from ") + tail
      && !Slice("} from ", gap + name + gap')
      && Trimmed(name) && ',' !in name && !Slice(" as ", name);
    var mid := gap + name + gap';
    ImportLine(lead, mid, tail);
    TrimMargins(gap, name, gap');
    OccursExactly(" as ", name);
  }

  lemma ImportLine(lead: string, mid: string, tail: string)
    requires Blank(lead) && !Blank(tail) && !Slice(FROM, mid)
    ensures var l := Trim(lead + (IMPORT + mid + FROM) + tail);
            IMPORT <= l && SplitOnce(l[|IMPORT|..], FROM) == Some(mid)
  {
    TrimAround(lead, IMPORT + mid + FROM, tail);
    AfterMark(IMPORT, mid, FROM, TrimEnd(tail));
    OccursExactly(FROM, mid);
    SplitOnceRead(mid, FROM, TrimEnd(tail));
  }

  /** Whatever is read as an import has that shape. */
  lemma ImportShape(line: string)
    requires ImportedType(line).Some?
    ensures Imports(line, ImportedType(line).value)
  {
    var l := Trim(line);
    var lead, end := TrimDecomposes(line);
    var mid, tail := SplitOnceShape(l[|IMPORT|..], FROM);
    var gap, gap' := TrimDecomposes(mid);
    LineParts(line, lead, l, end, IMPORT, mid, FROM, tail);
    OccursExactly(FROM, mid);
    OccursExactly(" as ", Trim(mid));
  }

  lemma LineParts(line: string, lead: string, l: string, end: string, a: string, mid: string, b: string, tail: string)
    requires line == lead + l + end && Trimmed(l) && a <= l && l[|a|..] == mid + (b + tail)
    requires b != [] && IsSpace(b[|b| - 1])
    ensures line == lead + (a + mid + b) + (tail + end) && !Blank(tail + end)
  {
    var front := a + mid + b;
    assert l == a + l[|a|..];
    assert l == front + tail;
    assert front[|front| - 1] == b[|b| - 1];
    TailNotBlank(l, front, tail);
    BlankParts(tail, end);
    Regroup(lead, front, tail);
    Regroup(lead + front, tail, end);
  }

  lemma TailNotBlank(l: string, front: string, tail: string)
    requires Trimmed(l) && l == front + tail && front != [] && IsSpace(front[|front| - 1])
    ensures !Blank(tail)
  {
    assert tail == [] ==> l == front;
    assert tail != [] ==> l[|l| - 1] == tail[|tail| - 1];
  }

  lemma BlankParts(a: string, b: string)
    requires !Blank(a)
    ensures !Blank(a + b)
  {
    var i :| 0 <= i < |a| && !IsSpace(a[i]);
    assert (a + b)[i] == a[i];
  }

  /** A line stays unless it imports one name and that name is nowhere in `scope`. */
  lemma UsedExactly(line: string, scope: string)
    ensures Used(line, scope) <==> forall name | Imports(line, name) :: Slice(name, scope)
  {
    if ImportedType(line).Some? {
      ImportShape(line);
      OccursExactly(ImportedType(line).value, scope);
    }
    forall name | Imports(line, name) ensures ImportedType(line) == Some(name) { ImportRead(line, name); }
  }

  /** The lines that import nothing, or a name that is still in `scope`, in order. */
  ghost function Needed(lines: seq<string>, scope: string): seq<string> {
    if lines == [] then []
    else (if forall name | Imports(lines[0], name) :: Slice(name, scope) then [lines[0]] else []) + Needed(lines[1..], scope)
  }

  lemma {:induction false} UsedLinesNeeded(lines: seq<string>, scope: string)
    ensures UsedLines(lines, scope) == Needed(lines, scope)
  {
    if lines != [] {
      UsedExactly(lines[0], scope);
      UsedLinesNeeded(lines[1..], scope);
    }
  }

  // ---- The filter ----

  ghost function Content(hs: seq<string>, decl: string, body: string, end: string): string {
    Unlines(hs) + (decl + ['='] + body + ([';'] + end))
  }

  /** Whole `=`-free lines, then one alias; nothing after the lines looks like an import. */
  ghost predicate AliasFile(hs: seq<string>, decl: string, body: string, end: string) {
    && (forall h | h in hs :: IsLine(h) && '=' !in h)
    && IsLine(decl) && '=' !in decl
    && '\r' !in body && '\r' !in end && ';' !in end
    && !Occurs(IMPORT, decl + ['='] + body + ([';'] + end))
  }

  lemma {:induction false} UnlinesLacks(hs: seq<string>, c: char)
    requires c != '\n' && forall h | h in hs :: c !in h
    ensures c !in Unlines(hs)
  {
    if hs != [] { assert hs[0] in hs; UnlinesLacks(hs[1..], c); }
  }

  lemma PrunedContent(hs: seq<string>, decl: string, body: string, end: string, scope: string)
    requires AliasFile(hs, decl, body, end)
    ensures Pruned(Content(hs, decl, body, end), scope) == Content(UsedLines(hs, scope), decl, body, end)
  {
    var t := decl + ['='] + body + ([';'] + end);
    assert '\r' !in t && t != [];
    PrunedTail(hs, t, scope);
  }

  lemma PrunedTail(hs: seq<string>, t: string, scope: string)
    requires (forall h | h in hs :: IsLine(h)) && '\r' !in t && t != [] && !Occurs(IMPORT, t)
    ensures Pruned(Unlines(hs) + t, scope) == Unlines(UsedLines(hs, scope)) + t
  {
    var used := UsedLines(hs, scope);
    UsedLinesOf(hs, t, scope);
    JoinUndoesLines(t);
    JoinOfLines(used, Lines(t));
    var whole := Unlines(hs) + t;
    assert whole[|whole| - 1] == t[|t| - 1];
    Regroup(Unlines(used), Join(Lines(t), ['\n']), Newline(t));
  }

  lemma UsedLinesOf(hs: seq<string>, t: string, scope: string)
    requires (forall h | h in hs :: IsLine(h)) && !Occurs(IMPORT, t)
    ensures UsedLines(Lines(Unlines(hs) + t), scope) == UsedLines(hs, scope) + Lines(t)
  {
    LinesOfUnlines(hs, t);
    UsedLinesAppend(hs, Lines(t), scope);
    LinesWithoutImports(t, scope);
  }

  lemma UsedLinesAppend(xs: seq<string>, ys: seq<string>, scope: string)
    ensures UsedLines(xs + ys, scope) == UsedLines(xs, scope) + UsedLines(ys, scope)
  {
    KeepAppend(xs, ys, l => Used(l, scope));
  }

  lemma ContentGroups(hs: seq<string>, decl: string, body: string, end: string)
    ensures Content(hs, decl, body, end) == Unlines(hs) + decl + ['='] + body + ([';'] + end)
  {
    var u := Unlines(hs);
    Regroup(u, decl + ['='] + body, [';'] + end);
    Regroup(u, decl + ['='], body);
    Regroup(u, decl, ['=']);
  }

  lemma ContentSplits(hs: seq<string>, decl: string, body: string, end: string)
    requires (forall h | h in hs :: '=' !in h) && '=' !in decl && ';' !in end
    ensures SplitAlias(Content(hs, decl, body, end)) == Some((Unlines(hs) + decl + ['='], body, [';'] + end))
  {
    var a := Unlines(hs) + decl;
    UnlinesLacks(hs, '=');
    SplitAliasShape(a, body, end);
    ContentGroups(hs, decl, body, end);
  }

  /** One pass over an alias file whose filtered body is `kept`. */
  lemma FilterPass(hs: seq<string>, decl: string, body: string, kept: string, end: string, methods: set<string>)
    requires AliasFile(hs, decl, kept, end) && kept == FilteredBody(body, methods)
    ensures FilterClientRequest(Content(hs, decl, body, end), methods)
            == Content(UsedLines(hs, kept), decl, kept, end)
  {
    ContentSplits(hs, decl, body, end);
    ContentSplits(hs, decl, kept, end);
    ContentGroups(hs, decl, kept, end);
    PrunedContent(hs, decl, kept, end, kept);
  }

  lemma {:induction false} JoinLacks(parts: seq<string>, sep: string, c: char)
    requires c !in sep && forall p | p in parts :: c !in p
    ensures c !in Join(parts, sep)
  {
    if parts != [] {
      assert parts[0] in parts;
      if |parts| > 1 { JoinLacks(parts[1..], sep, c); }
    }
  }

  lemma FilteredStaysAliasFile(hs: seq<string>, decl: string, body: string, end: string, methods: set<string>)
    requires AliasFile(hs, decl, body, end)
    ensures AliasFile(hs, decl, FilteredBody(body, methods), end)
  {
    var arms := StableArms(Split(body, {'|'}), methods);
    var kept := FilteredBody(body, methods);
    KeepMembers(Split(body, {'|'}), a => Stable(a, methods));
    forall p | p in arms ensures '\r' !in p && !Occurs(IMPORT, p) {
      ArmIsSlice(body, {'|'}, p);
      var x, y :| body == x + p + y;
      assert forall c | c in p :: c in body;
      if Occurs(IMPORT, p) {
        SliceOccurs(IMPORT, p, body);
        OccursWithin(IMPORT, decl + ['='], body);
        OccursWithin(IMPORT, decl + ['='] + body, [';'] + end);
      }
    }
    JoinLacks(arms, Separator(true, '|'), '\r');
    JoinAddsNoImport(arms);
    if Occurs(IMPORT, decl + ['='] + kept + ([';'] + end)) {
      AroundBody(decl, kept, end);
      IntoBody(decl, body, end);
    }
  }

  lemma IntoBody(decl: string, body: string, end: string)
    requires Occurs(IMPORT, decl) || Occurs(IMPORT, end)
    ensures Occurs(IMPORT, decl + ['='] + body + ([';'] + end))
  {
    assert decl + (['='] + body + ([';'] + end)) == decl + ['='] + body + ([';'] + end);
    assert decl + ['='] + body + [';'] + end == decl + ['='] + body + ([';'] + end);
    if Occurs(IMPORT, decl) {
      OccursWithin(IMPORT, decl, ['='] + body + ([';'] + end));
    } else {
      OccursWithin(IMPORT, decl + ['='] + body + [';'], end);
    }
  }

  lemma AroundBody(decl: string, body: string, end: string)
    requires Occurs(IMPORT, decl + ['='] + body + ([';'] + end))
    ensures Occurs(IMPORT, decl) || Occurs(IMPORT, body) || Occurs(IMPORT, end)
  {
    assert decl + ['='] + body + ([';'] + end) == decl + ['='] + (body + [';'] + end);
    OccursBesides(IMPORT, decl, '=', body + [';'] + end);
    if Occurs(IMPORT, body + [';'] + end) { OccursBesides(IMPORT, body, ';', end); }
  }

  lemma KeptArmsClean(body: string, methods: set<string>)
    requires Settled(Start, body)
    ensures var arms := StableArms(Split(body, {'|'}), methods);
            forall i | 0 <= i < |arms| :: CleanPart(arms[i], {'|'})
  {
    SplitClean(body, {'|'});
    KeepMembers(Split(body, {'|'}), a => Stable(a, methods));
  }

  /** The arms that are for no method of `methods`, in order. */
  ghost function Surviving(arms: seq<string>, methods: set<string>): seq<string> {
    if arms == [] then []
    else (if Experimental(arms[0], methods) then [] else [arms[0]]) + Surviving(arms[1..], methods)
  }

  lemma {:induction false} StableArmsSurvive(arms: seq<string>, methods: set<string>)
    ensures StableArms(arms, methods) == Surviving(arms, methods)
  {
    if arms != [] {
      StableExactly(arms[0], methods);
      StableArmsSurvive(arms[1..], methods);
    }
  }

  lemma FilteredArms(hs: seq<string>, decl: string, body: string, end: string, methods: set<string>)
    requires AliasFile(hs, decl, body, end) && Settled(Start, body)
    ensures var kept := FilteredBody(body, methods);
            && FilterClientRequest(Content(hs, decl, body, end), methods)
               == Content(UsedLines(hs, kept), decl, kept, end)
            && Split(kept, {'|'}) == StableArms(Split(body, {'|'}), methods)
  {
    FilteredStaysAliasFile(hs, decl, body, end, methods);
    FilterPass(hs, decl, body, FilteredBody(body, methods), end, methods);
    KeptArmsClean(body, methods);
    SplitJoin(StableArms(Split(body, {'|'}), methods), true, '|', {'|'});
  }

  /**
    MAIN: the filtered alias has exactly the arms whose first `method` field names none of
    the methods, in order, under the same declaration and the imports its body still uses.
   */
  lemma FilterKeepsStableArms(hs: seq<string>, decl: string, body: string, end: string, methods: set<string>)
    requires AliasFile(hs, decl, body, end) && Settled(Start, body)
    ensures exists kept ::
              && FilterClientRequest(Content(hs, decl, body, end), methods)
                 == Content(Needed(hs, kept), decl, kept, end)
              && Split(kept, {'|'}) == Surviving(Split(body, {'|'}), methods)
  {
    FilteredArms(hs, decl, body, end, methods);
    UsedLinesNeeded(hs, FilteredBody(body, methods));
    StableArmsSurvive(Split(body, {'|'}), methods);
  }

  /** MAIN: filtering twice, import pruning included, is filtering once. */
  lemma FilterIdempotent(hs: seq<string>, decl: string, body: string, end: string, methods: set<string>)
    requires AliasFile(hs, decl, body, end) && Settled(Start, body)
    ensures var once := FilterClientRequest(Content(hs, decl, body, end), methods);
            FilterClientRequest(once, methods) == once
  {
    var kept := FilteredBody(body, methods);
    var used := UsedLines(hs, kept);
    FilteredArms(hs, decl, body, end, methods);
    KeepTwice(Split(body, {'|'}), a => Stable(a, methods));
    FilteredStaysAliasFile(hs, decl, body, end, methods);
    KeepTwice(hs, l => Used(l, kept));
    KeepMembers(hs, l => Used(l, kept));
    FilterPass(used, decl, kept, kept, end, methods);
  }
}
