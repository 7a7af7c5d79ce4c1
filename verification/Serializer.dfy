/**
  The compact JSON text of a value (`serde_json::to_string`), and the proof that it
  determines the value.
 */
module Serializer {
  import opened Text
  import opened JsonValue

  // ---- Strings ----

  function HexDigit(n: nat): char
    requires n < 16
  {
    "0123456789abcdef"[n]
  }

  /** How one character appears between the quotes. */
  function Escape(c: char): string {
    if c == '\"' then "\\\""
    else if c == '\\' then "\\\\"
    else if c == '\U{8}' then "\\b"
    else if c == '\U{C}' then "\\f"
    else if c == '\n' then "\\n"
    else if c == '\r' then "\\r"
    else if c == '\t' then "\\t"
    else if c as int < 0x20 then "\\u00" + [HexDigit(c as int / 16), HexDigit(c as int % 16)]
    else [c]
  }

  /** The rest of a quoted string, its closing quote, and whatever is written after it. */
  function Escaped(s: string, rest: string): string {
    if s == [] then ['\"'] + rest else Escape(s[0]) + Escaped(s[1..], rest)
  }

  function Quoted(s: string, rest: string): string { ['\"'] + Escaped(s, rest) }

  lemma HexDigitInjective(m: nat, n: nat)
    requires m < 16 && n < 16 && HexDigit(m) == HexDigit(n)
    ensures m == n
  {
    var t := "0123456789abcdef";
    assert forall i, j | 0 <= i < j < 16 :: t[i] != t[j];
  }

  /** No escape is a proper prefix of another. */
  lemma EscapePrefixFree(c: char, d: char, r: string, s: string)
    requires Escape(c) + r == Escape(d) + s
    ensures c == d && r == s
  {
    var x, y := Escape(c) + r, Escape(d) + s;
    assert x[0] == Escape(c)[0] && y[0] == Escape(d)[0];
    if x[0] == '\\' {
      assert x[1] == Escape(c)[1] && y[1] == Escape(d)[1];
      if x[1] == 'u' {
        assert x[4] == Escape(c)[4] && y[4] == Escape(d)[4];
        assert x[5] == Escape(c)[5] && y[5] == Escape(d)[5];
        HexDigitInjective(c as int / 16, d as int / 16);
        HexDigitInjective(c as int % 16, d as int % 16);
      }
    }
    assert c == d;
    assert r == x[|Escape(c)|..] && s == y[|Escape(d)|..];
  }

  lemma AppendCancels(p: string, r: string, s: string)
    requires p + r == p + s
    ensures r == s
  {
    assert r == (p + r)[|p|..] && s == (p + s)[|p|..];
  }

  lemma ConsCancels(c: char, d: char, r: string, s: string)
    requires [c] + r == [d] + s
    ensures c == d && r == s
  {
    assert c == ([c] + r)[0] && d == ([d] + s)[0];
    AppendCancels([c], r, s);
  }

  lemma {:induction false} EscapedInjective(a: string, b: string, r: string, s: string)
    requires Escaped(a, r) == Escaped(b, s)
    ensures a == b && r == s
  {
    if a == [] && b == [] {
      ConsCancels('\"', '\"', r, s);
    } else if a != [] && b != [] {
      EscapePrefixFree(a[0], b[0], Escaped(a[1..], r), Escaped(b[1..], s));
      EscapedInjective(a[1..], b[1..], r, s);
      assert a == [a[0]] + a[1..] && b == [b[0]] + b[1..];
    } else {
      EscapedHead(a, r); EscapedHead(b, s);
    }
  }

  lemma EscapedHead(a: string, r: string)
    ensures Escaped(a, r) != [] && (Escaped(a, r)[0] == '\"' <==> a == [])
  {
    if a != [] {
      assert Escape(a[0]) != [] && Escape(a[0])[0] != '\"';
    }
  }

  // ---- Sorted keys ----

  predicate IsMin(k: string, ks: set<string>) {
    k in ks && forall x | x in ks :: Leq(k, x)
  }

  lemma {:induction false} MinExists(ks: set<string>)
    requires ks != {}
    ensures exists k :: IsMin(k, ks)
    decreases |ks|
  {
    var x :| x in ks;
    var rest := ks - {x};
    LeqTotal(x, x);
    if rest == {} {
      assert ks == {x};
      assert IsMin(x, ks);
    } else {
      MinExists(rest);
      var m :| IsMin(m, rest);
      LeqTotal(x, m);
      if Leq(m, x) {
        assert IsMin(m, ks);
      } else {
        forall y | y in ks ensures Leq(x, y) {
          if y != x { assert y in rest; LeqTrans(x, m, y); }
        }
        assert IsMin(x, ks);
      }
    }
  }

  lemma MinUnique(ks: set<string>)
    ensures forall k, l | IsMin(k, ks) && IsMin(l, ks) :: k == l
  {
    forall k, l | IsMin(k, ks) && IsMin(l, ks) ensures k == l { LeqAntisym(k, l); }
  }

  function SortedKeys(ks: set<string>): (r: seq<string>)
    ensures forall k :: k in r <==> k in ks
    decreases |ks|
  {
    if ks == {} then [] else
      MinExists(ks);
      MinUnique(ks);
      var k :| IsMin(k, ks);
      [k] + SortedKeys(ks - {k})
  }

  // ---- Values ----

  /** The text of `j` followed by `rest`. */
  function Written(j: Json, rest: string): string
    decreases j, 2
  {
    match j
    case Null => "null" + rest
    case Bool(b) => (if b then "true" else "false") + rest
    case Num(n) => n + rest
    case Str(s) => Quoted(s, rest)
    case Arr(xs) => ['['] + (if xs == [] then [']'] + rest else Written(xs[0], WrittenTail(xs[1..], rest)))
    case Obj(m) => ['{'] + WrittenObject(j, SortedKeys(m.Keys), rest)
  }

  function WrittenTail(xs: seq<Json>, rest: string): string
    decreases xs, 0
  {
    if xs == [] then [']'] + rest else [','] + Written(xs[0], WrittenTail(xs[1..], rest))
  }

  function WrittenObject(j: Json, keys: seq<string>, rest: string): string
    requires j.Obj? && forall k | k in keys :: k in j.fields
    decreases j, 1, |keys|
  {
    if keys == [] then ['}'] + rest else WrittenField(j, keys[0], WrittenFields(j, keys[1..], rest))
  }

  function WrittenField(j: Json, k: string, rest: string): string
    requires j.Obj? && k in j.fields
    decreases j, 0
  {
    Quoted(k, [':'] + Written(j.fields[k], rest))
  }

  function WrittenFields(j: Json, keys: seq<string>, rest: string): string
    requires j.Obj? && forall k | k in keys :: k in j.fields
    decreases j, 1, |keys|
  {
    if keys == [] then ['}'] + rest
    else [','] + WrittenField(j, keys[0], WrittenFields(j, keys[1..], rest))
  }

  function JsonText(j: Json): string { Written(j, []) }

  predicate IsCloser(c: char) { c == ',' || c == ']' || c == '}' }

  /** What may follow a value inside a larger text. */
  predicate Terminated(r: string) {
    r == [] || IsCloser(r[0])
  }

  /** The first character tells the kind of value. */
  function KindOf(c: char): nat {
    if c == 'n' then 0 else if c == 't' then 1 else if c == 'f' then 2
    else if c == '\"' then 4 else if c == '[' then 5 else if c == '{' then 6
    else if IsCloser(c) then 7 else 3
  }

  lemma WrittenKind(j: Json, r: string)
    ensures Written(j, r) != []
    ensures KindOf(Written(j, r)[0]) ==
            match j
            case Null => 0
            case Bool(b) => if b then 1 else 2
            case Num(_) => 3
            case Str(_) => 4
            case Arr(_) => 5
            case Obj(_) => 6
  {
    match j
    case Num(n) => assert IsNumberChar(n[0]); assert (n + r)[0] == n[0];
    case _ =>
  }

  lemma {:induction false} NumberSplits(a: string, b: string, r: string, s: string)
    requires forall i | 0 <= i < |a| :: IsNumberChar(a[i])
    requires forall i | 0 <= i < |b| :: IsNumberChar(b[i])
    requires a + r == b + s && Terminated(r) && Terminated(s)
    ensures a == b && r == s
  {
    assert (if a == [] then a + r == r else (a + r)[0] == a[0]);
    assert (if b == [] then b + s == s else (b + s)[0] == b[0]);
    if a != [] {
      assert a + r == [a[0]] + (a[1..] + r) && b + s == [b[0]] + (b[1..] + s);
      ConsCancels(a[0], b[0], a[1..] + r, b[1..] + s);
      NumberSplits(a[1..], b[1..], r, s);
      assert a == [a[0]] + a[1..] && b == [b[0]] + b[1..];
    }
  }

  /** A written value can be split from what follows it in one way only. */
  lemma {:induction false} WrittenSplits(v: Json, w: Json, r: string, s: string)
    requires Written(v, r) == Written(w, s) && Terminated(r) && Terminated(s)
    ensures v == w && r == s
    decreases v, 2
  {
    WrittenKind(v, r); WrittenKind(w, s);
    match v
    case Null => AppendCancels("null", r, s);
    case Bool(b) => AppendCancels(if b then "true" else "false", r, s);
    case Num(n) => NumberSplits(n, w.repr, r, s);
    case Str(t) =>
      ConsCancels('\"', '\"', Escaped(t, r), Escaped(w.text, s));
      EscapedInjective(t, w.text, r, s);
    case Arr(xs) => ArraySplits(v, w, r, s);
    case Obj(m) =>
      var ks, ls := SortedKeys(m.Keys), SortedKeys(w.fields.Keys);
      ConsCancels('{', '{', WrittenObject(v, ks, r), WrittenObject(w, ls, s));
      ObjectSplits(v, w, ks, ls, r, s);
      SameFields(v, w, ks);
  }

  lemma SameFields(v: Json, w: Json, ks: seq<string>)
    requires v.Obj? && w.Obj?
    requires forall k :: k in ks <==> k in v.fields
    requires forall k :: k in ks <==> k in w.fields
    requires forall k | k in ks :: v.fields[k] == w.fields[k]
    ensures v == w
  {
    assert v.fields == w.fields;
  }

  lemma {:induction false} ArraySplits(v: Json, w: Json, r: string, s: string)
    requires v.Arr? && w.Arr?
    requires Written(v, r) == Written(w, s)
    ensures v == w && r == s
    decreases v, 1
  {
    var xs, ys := v.items, w.items;
    var x := if xs == [] then [']'] + r else Written(xs[0], WrittenTail(xs[1..], r));
    var y := if ys == [] then [']'] + s else Written(ys[0], WrittenTail(ys[1..], s));
    ConsCancels('[', '[', x, y);
    if xs == [] && ys == [] {
      ConsCancels(']', ']', r, s);
    } else if xs != [] && ys != [] {
      WrittenSplits(xs[0], ys[0], WrittenTail(xs[1..], r), WrittenTail(ys[1..], s));
      TailSplits(xs[1..], ys[1..], r, s);
      assert xs == [xs[0]] + xs[1..] && ys == [ys[0]] + ys[1..];
    } else if xs != [] {
      WrittenKind(xs[0], WrittenTail(xs[1..], r));
    } else {
      WrittenKind(ys[0], WrittenTail(ys[1..], s));
    }
  }

  lemma {:induction false} TailSplits(xs: seq<Json>, ys: seq<Json>, r: string, s: string)
    requires WrittenTail(xs, r) == WrittenTail(ys, s)
    ensures xs == ys && r == s
    decreases xs, 0
  {
    assert WrittenTail(xs, r)[0] == if xs == [] then ']' else ',';
    assert WrittenTail(ys, s)[0] == if ys == [] then ']' else ',';
    if xs == [] {
      ConsCancels(']', ']', r, s);
    } else {
      ConsCancels(',', ',', Written(xs[0], WrittenTail(xs[1..], r)), Written(ys[0], WrittenTail(ys[1..], s)));
      WrittenSplits(xs[0], ys[0], WrittenTail(xs[1..], r), WrittenTail(ys[1..], s));
      TailSplits(xs[1..], ys[1..], r, s);
      assert xs == [xs[0]] + xs[1..] && ys == [ys[0]] + ys[1..];
    }
  }

  lemma {:induction false} ObjectSplits(v: Json, w: Json, ks: seq<string>, ls: seq<string>, r: string, s: string)
    requires v.Obj? && w.Obj?
    requires (forall k | k in ks :: k in v.fields) && (forall k | k in ls :: k in w.fields)
    requires WrittenObject(v, ks, r) == WrittenObject(w, ls, s)
    ensures ks == ls && r == s && forall k | k in ks :: v.fields[k] == w.fields[k]
    decreases v, 1
  {
    assert WrittenObject(v, ks, r)[0] == if ks == [] then '}' else '\"';
    assert WrittenObject(w, ls, s)[0] == if ls == [] then '}' else '\"';
    if ks == [] {
      ConsCancels('}', '}', r, s);
    } else {
      FieldSplits(v, w, ks[0], ls[0], WrittenFields(v, ks[1..], r), WrittenFields(w, ls[1..], s));
      FieldsSplit(v, w, ks[1..], ls[1..], r, s);
      assert ks == [ks[0]] + ks[1..] && ls == [ls[0]] + ls[1..];
    }
  }

  lemma {:induction false} FieldSplits(v: Json, w: Json, k: string, l: string, r: string, s: string)
    requires v.Obj? && w.Obj? && k in v.fields && l in w.fields
    requires WrittenField(v, k, r) == WrittenField(w, l, s) && Terminated(r) && Terminated(s)
    ensures k == l && v.fields[k] == w.fields[l] && r == s
    decreases v, 0, 0
  {
    var p, q := [':'] + Written(v.fields[k], r), [':'] + Written(w.fields[l], s);
    ConsCancels('\"', '\"', Escaped(k, p), Escaped(l, q));
    EscapedInjective(k, l, p, q);
    ConsCancels(':', ':', Written(v.fields[k], r), Written(w.fields[l], s));
    WrittenSplits(v.fields[k], w.fields[l], r, s);
  }

  lemma {:induction false} FieldsSplit(v: Json, w: Json, ks: seq<string>, ls: seq<string>, r: string, s: string)
    requires v.Obj? && w.Obj?
    requires (forall k | k in ks :: k in v.fields) && (forall k | k in ls :: k in w.fields)
    requires WrittenFields(v, ks, r) == WrittenFields(w, ls, s)
    ensures ks == ls && r == s && forall k | k in ks :: v.fields[k] == w.fields[k]
    decreases v, 0, 1, |ks|
  {
    assert WrittenFields(v, ks, r)[0] == if ks == [] then '}' else ',';
    assert WrittenFields(w, ls, s)[0] == if ls == [] then '}' else ',';
    if ks == [] {
      ConsCancels('}', '}', r, s);
    } else {
      var p, q := WrittenFields(v, ks[1..], r), WrittenFields(w, ls[1..], s);
      ConsCancels(',', ',', WrittenField(v, ks[0], p), WrittenField(w, ls[0], q));
      FieldSplits(v, w, ks[0], ls[0], p, q);
      FieldsSplit(v, w, ks[1..], ls[1..], r, s);
      assert ks == [ks[0]] + ks[1..] && ls == [ls[0]] + ls[1..];
    }
  }

  /** Different values have different texts. */
  lemma JsonTextInjective(v: Json, w: Json)
    requires JsonText(v) == JsonText(w)
    ensures v == w
  {
    WrittenSplits(v, w, [], []);
  }
}
