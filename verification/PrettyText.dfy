/**
  The indented JSON text of a value (`serde_json::to_vec_pretty`). Dropping the blanks
  outside its strings gives the compact text, so it too determines the value.
 */
module PrettyText {
  import opened Text
  import opened JsonValue
  import opened Serializer

  /** A new line, indented two spaces a level. */
  function Line(depth: nat, rest: string): string { ['\n'] + Indent(depth, rest) }

  function Indent(depth: nat, rest: string): string {
    if depth == 0 then rest else [' ', ' '] + Indent(depth - 1, rest)
  }

  /** The indented text of `j` followed by `rest`. */
  function Pretty(j: Json, depth: nat, rest: string): string
    decreases j, 2
  {
    match j
    case Arr(xs) =>
      ['['] + if xs == [] then [']'] + rest
              else Line(depth + 1, Pretty(xs[0], depth + 1, PrettyTail(xs[1..], depth, rest)))
    case Obj(m) => ['{'] + PrettyObject(j, SortedKeys(m.Keys), depth, rest)
    case _ => Written(j, rest)
  }

  function PrettyTail(xs: seq<Json>, depth: nat, rest: string): string
    decreases xs, 0
  {
    if xs == [] then Line(depth, [']'] + rest)
    else [','] + Line(depth + 1, Pretty(xs[0], depth + 1, PrettyTail(xs[1..], depth, rest)))
  }

  function PrettyObject(j: Json, keys: seq<string>, depth: nat, rest: string): string
    requires j.Obj? && forall k | k in keys :: k in j.fields
    decreases j, 1, |keys|
  {
    if keys == [] then ['}'] + rest
    else PrettyField(j, keys[0], depth, PrettyFields(j, keys[1..], depth, rest))
  }

  function PrettyField(j: Json, k: string, depth: nat, rest: string): string
    requires j.Obj? && k in j.fields
    decreases j, 0
  {
    Line(depth + 1, Quoted(k, [':', ' '] + Pretty(j.fields[k], depth + 1, rest)))
  }

  function PrettyFields(j: Json, keys: seq<string>, depth: nat, rest: string): string
    requires j.Obj? && forall k | k in keys :: k in j.fields
    decreases j, 1, |keys|
  {
    if keys == [] then Line(depth, ['}'] + rest)
    else [','] + PrettyField(j, keys[0], depth, PrettyFields(j, keys[1..], depth, rest))
  }

  function JsonPretty(j: Json): string { Pretty(j, 0, []) }

  // ---- Dropping blanks outside strings ----

  function Squeezed(text: string): string
    decreases |text|
  {
    if text == [] then []
    else if text[0] == ' ' || text[0] == '\n' then Squeezed(text[1..])
    else if text[0] == '\"' then ['\"'] + InString(text[1..])
    else [text[0]] + Squeezed(text[1..])
  }

  function InString(text: string): string
    decreases |text|
  {
    if text == [] then []
    else if text[0] == '\"' then ['\"'] + Squeezed(text[1..])
    else if text[0] == '\\' && |text| > 1 then [text[0], text[1]] + InString(text[2..])
    else [text[0]] + InString(text[1..])
  }

  lemma {:induction false} SqueezedIndent(depth: nat, rest: string)
    ensures Squeezed(Indent(depth, rest)) == Squeezed(rest)
  {
    if depth > 0 {
      var more := Indent(depth - 1, rest);
      SqueezedIndent(depth - 1, rest);
      assert ([' ', ' '] + more)[1..] == [' '] + more && ([' '] + more)[1..] == more;
    }
  }

  lemma SqueezedLine(depth: nat, rest: string)
    ensures Squeezed(Line(depth, rest)) == Squeezed(rest)
  {
    SqueezedIndent(depth, rest);
    assert Line(depth, rest)[1..] == Indent(depth, rest);
  }

  predicate IsSolid(c: char) { c != ' ' && c != '\n' && c != '\"' }

  lemma SqueezedChar(c: char, rest: string)
    requires IsSolid(c)
    ensures Squeezed([c] + rest) == [c] + Squeezed(rest)
  {
    assert ([c] + rest)[1..] == rest;
  }

  lemma {:induction false} SqueezedSolid(p: string, rest: string)
    requires forall i | 0 <= i < |p| :: IsSolid(p[i])
    ensures Squeezed(p + rest) == p + Squeezed(rest)
  {
    if p == [] {
      assert p + rest == rest;
    } else {
      assert p + rest == [p[0]] + (p[1..] + rest);
      SqueezedChar(p[0], p[1..] + rest);
      SqueezedSolid(p[1..], rest);
    }
  }

  lemma InStringChar(c: char, rest: string)
    requires c != '\"' && c != '\\'
    ensures InString([c] + rest) == [c] + InString(rest)
  {
    assert ([c] + rest)[1..] == rest;
  }

  lemma InStringPair(c: char, rest: string)
    ensures InString(['\\', c] + rest) == ['\\', c] + InString(rest)
  {
    assert (['\\', c] + rest)[2..] == rest;
  }

  lemma {:induction false} InStringPlain(p: string, rest: string)
    requires '\"' !in p && '\\' !in p
    ensures InString(p + rest) == p + InString(rest)
  {
    if p == [] {
      assert p + rest == rest;
    } else {
      assert p + rest == [p[0]] + (p[1..] + rest);
      InStringChar(p[0], p[1..] + rest);
      InStringPlain(p[1..], rest);
    }
  }

  lemma InStringControl(h: char, l: char, rest: string)
    requires h != '\"' && h != '\\' && l != '\"' && l != '\\'
    ensures InString("\\u00" + [h, l] + rest) == "\\u00" + [h, l] + InString(rest)
  {
    var p := ['0', '0', h, l];
    assert "\\u00" + [h, l] + rest == ['\\', 'u'] + (p + rest);
    InStringPair('u', p + rest);
    InStringPlain(p, rest);
    assert ['\\', 'u'] + (p + InString(rest)) == "\\u00" + [h, l] + InString(rest);
  }

  lemma HexIsPlain(n: nat)
    requires n < 16
    ensures HexDigit(n) != '\"' && HexDigit(n) != '\\'
  {
    var t := "0123456789abcdef";
    assert forall i | 0 <= i < 16 :: t[i] != '\"' && t[i] != '\\';
  }

  lemma InStringEscape(c: char, rest: string)
    ensures InString(Escape(c) + rest) == Escape(c) + InString(rest)
  {
    if |Escape(c)| == 1 {
      InStringChar(c, rest);
    } else if |Escape(c)| == 2 {
      assert Escape(c) == ['\\', Escape(c)[1]];
      InStringPair(Escape(c)[1], rest);
    } else {
      var n := c as int;
      HexIsPlain(n / 16);
      HexIsPlain(n % 16);
      InStringControl(HexDigit(n / 16), HexDigit(n % 16), rest);
    }
  }

  lemma {:induction false} InStringEscaped(s: string, rest: string)
    ensures InString(Escaped(s, rest)) == Escaped(s, Squeezed(rest))
  {
    if s == [] {
      assert (['\"'] + rest)[1..] == rest;
    } else {
      InStringEscape(s[0], Escaped(s[1..], rest));
      InStringEscaped(s[1..], rest);
    }
  }

  lemma SqueezedQuoted(s: string, rest: string)
    ensures Squeezed(Quoted(s, rest)) == Quoted(s, Squeezed(rest))
  {
    InStringEscaped(s, rest);
    assert Quoted(s, rest)[1..] == Escaped(s, rest);
  }

  // ---- The compact text inside the indented one ----

  lemma SqueezedLeaf(j: Json, rest: string)
    requires !j.Arr? && !j.Obj?
    ensures Squeezed(Written(j, rest)) == Written(j, Squeezed(rest))
  {
    match j
    case Null => SqueezedSolid("null", rest);
    case Bool(b) => if b { SqueezedSolid("true", rest); } else { SqueezedSolid("false", rest); }
    case Num(n) => assert forall i | 0 <= i < |n| :: IsNumberChar(n[i]); SqueezedSolid(n, rest);
    case Str(s) => SqueezedQuoted(s, rest);
  }

  lemma {:induction false} SqueezedPretty(j: Json, depth: nat, rest: string)
    ensures Squeezed(Pretty(j, depth, rest)) == Written(j, Squeezed(rest))
    decreases j, 2
  {
    match j
    case Arr(xs) =>
      if xs == [] {
        SqueezedChar('[', [']'] + rest);
        SqueezedChar(']', rest);
      } else {
        var tail := PrettyTail(xs[1..], depth, rest);
        SqueezedChar('[', Line(depth + 1, Pretty(xs[0], depth + 1, tail)));
        SqueezedLine(depth + 1, Pretty(xs[0], depth + 1, tail));
        SqueezedPretty(xs[0], depth + 1, tail);
        SqueezedTail(xs[1..], depth, rest);
      }
    case Obj(m) =>
      var keys := SortedKeys(m.Keys);
      SqueezedChar('{', PrettyObject(j, keys, depth, rest));
      SqueezedObject(j, keys, depth, rest);
    case _ => SqueezedLeaf(j, rest);
  }

  lemma {:induction false} SqueezedTail(xs: seq<Json>, depth: nat, rest: string)
    ensures Squeezed(PrettyTail(xs, depth, rest)) == WrittenTail(xs, Squeezed(rest))
    decreases xs, 0
  {
    if xs == [] {
      SqueezedLine(depth, [']'] + rest);
      SqueezedChar(']', rest);
    } else {
      var tail := PrettyTail(xs[1..], depth, rest);
      SqueezedChar(',', Line(depth + 1, Pretty(xs[0], depth + 1, tail)));
      SqueezedLine(depth + 1, Pretty(xs[0], depth + 1, tail));
      SqueezedPretty(xs[0], depth + 1, tail);
      SqueezedTail(xs[1..], depth, rest);
    }
  }

  lemma SqueezedColon(value: string)
    ensures Squeezed([':', ' '] + value) == [':'] + Squeezed(value)
  {
    assert [':', ' '] + value == [':'] + ([' '] + value) && ([' '] + value)[1..] == value;
    SqueezedChar(':', [' '] + value);
  }

  lemma {:induction false} SqueezedField(j: Json, k: string, depth: nat, rest: string)
    requires j.Obj? && k in j.fields
    ensures Squeezed(PrettyField(j, k, depth, rest)) == WrittenField(j, k, Squeezed(rest))
    decreases j, 0
  {
    var value := Pretty(j.fields[k], depth + 1, rest);
    SqueezedLine(depth + 1, Quoted(k, [':', ' '] + value));
    SqueezedQuoted(k, [':', ' '] + value);
    SqueezedColon(value);
    SqueezedPretty(j.fields[k], depth + 1, rest);
  }

  lemma {:induction false} SqueezedObject(j: Json, keys: seq<string>, depth: nat, rest: string)
    requires j.Obj? && forall k | k in keys :: k in j.fields
    ensures Squeezed(PrettyObject(j, keys, depth, rest)) == WrittenObject(j, keys, Squeezed(rest))
    decreases j, 1, |keys|
  {
    if keys == [] {
      SqueezedChar('}', rest);
    } else {
      SqueezedField(j, keys[0], depth, PrettyFields(j, keys[1..], depth, rest));
      SqueezedFields(j, keys[1..], depth, rest);
    }
  }

  lemma {:induction false} SqueezedFields(j: Json, keys: seq<string>, depth: nat, rest: string)
    requires j.Obj? && forall k | k in keys :: k in j.fields
    ensures Squeezed(PrettyFields(j, keys, depth, rest)) == WrittenFields(j, keys, Squeezed(rest))
    decreases j, 1, |keys|
  {
    if keys == [] {
      SqueezedLine(depth, ['}'] + rest);
      SqueezedChar('}', rest);
    } else {
      var more := PrettyFields(j, keys[1..], depth, rest);
      SqueezedChar(',', PrettyField(j, keys[0], depth, more));
      SqueezedField(j, keys[0], depth, more);
      SqueezedFields(j, keys[1..], depth, rest);
    }
  }

  /** MAIN: the indented text determines the value. */
  lemma JsonPrettyInjective(v: Json, w: Json)
    requires JsonPretty(v) == JsonPretty(w)
    ensures v == w
  {
    SqueezedPretty(v, 0, []);
    SqueezedPretty(w, 0, []);
    JsonTextInjective(v, w);
  }
}
