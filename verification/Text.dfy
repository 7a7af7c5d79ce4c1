/** Optional and failing results, and the string operations the other modules share. */
module Text {

  datatype Option<+T> = None | Some(value: T)

  datatype Result<+T, +E> = Ok(value: T) | Err(error: E)

  lemma Regroup<T>(a: seq<T>, b: seq<T>, c: seq<T>)
    ensures a + (b + c) == (a + b) + c
  {
  }

  // ---- Searching ----

  function IndexOf(s: string, c: char): (r: Option<nat>)
    ensures r.Some? ==> r.value < |s| && s[r.value] == c && c !in s[..r.value]
    ensures r.None? ==> c !in s
  {
    if s == [] then None
    else if s[0] == c then Some(0)
    else
      match IndexOf(s[1..], c)
      case None => None
      case Some(i) =>
        assert s[..i + 1] == [s[0]] + s[1..][..i];
        Some(i + 1)
  }

  function LastIndexOf(s: string, c: char): (r: Option<nat>)
    ensures r.Some? ==> r.value < |s| && s[r.value] == c && c !in s[r.value + 1..]
    ensures r.None? ==> c !in s
  {
    if s == [] then None
    else if s[|s| - 1] == c then Some(|s| - 1)
    else
      var t := s[..|s| - 1];
      match LastIndexOf(t, c)
      case None => None
      case Some(i) =>
        assert s[i + 1..] == t[i + 1..] + [s[|s| - 1]];
        Some(i)
  }

  lemma {:induction false} IndexOfFirst(a: string, c: char, rest: string)
    requires c !in a
    ensures IndexOf(a + [c] + rest, c) == Some(|a|)
  {
    var t := a + [c] + rest;
    if a == [] {
      assert t[0] == c;
    } else {
      assert t[0] == a[0] && t[1..] == a[1..] + [c] + rest;
      IndexOfFirst(a[1..], c, rest);
    }
  }

  lemma {:induction false} LastIndexOfLast(rest: string, c: char, b: string)
    requires c !in b
    ensures LastIndexOf(rest + [c] + b, c) == Some(|rest|)
    decreases |b|
  {
    var t := rest + [c] + b;
    if b == [] {
      assert t[|t| - 1] == c;
    } else {
      assert t[|t| - 1] == b[|b| - 1] && t[..|t| - 1] == rest + [c] + b[..|b| - 1];
      LastIndexOfLast(rest, c, b[..|b| - 1]);
    }
  }

  /** Rust's `str::contains`. */
  predicate Occurs(pat: string, text: string) {
    pat <= text || (text != [] && Occurs(pat, text[1..]))
  }

  // ---- Lexicographic order by code point (the order of Rust's `str`) ----

  predicate Leq(a: string, b: string) {
    a == [] || (b != [] && (a[0] < b[0] || (a[0] == b[0] && Leq(a[1..], b[1..]))))
  }

  lemma {:induction false} LeqAntisym(a: string, b: string)
    requires Leq(a, b) && Leq(b, a)
    ensures a == b
  {
    if a != [] {
      LeqAntisym(a[1..], b[1..]);
      assert a == [a[0]] + a[1..] && b == [b[0]] + b[1..];
    }
  }

  lemma {:induction false} LeqTotal(a: string, b: string)
    ensures Leq(a, b) || Leq(b, a)
  {
    if a != [] && b != [] && a[0] == b[0] { LeqTotal(a[1..], b[1..]); }
  }

  lemma {:induction false} LeqTrans(a: string, b: string, c: string)
    requires Leq(a, b) && Leq(b, c)
    ensures Leq(a, c)
  {
    if a != [] && a[0] == b[0] && b[0] == c[0] { LeqTrans(a[1..], b[1..], c[1..]); }
  }
}
