// The part of Go's strings package the controller relies on.

module Strings {
  /**
   * strings.Split with a one-character separator: the maximal pieces between
   * separators, one more piece than there are separators ("" gives [""]).
   */
  function Split(s: string, sep: char): (parts: seq<string>)
    ensures |parts| == multiset(s)[sep] + 1
    ensures forall i :: 0 <= i < |parts| ==> sep !in parts[i]
    ensures Join(parts, sep) == s
  {
    if s == [] then [[]]
    else
      var rest := Split(s[1..], sep);
      assert s == [s[0]] + s[1..];
      assert multiset(s) == multiset([s[0]]) + multiset(s[1..]);
      if s[0] == sep then
        assert ([[]] + rest)[1..] == rest;
        [[]] + rest
      else
        JoinExtendsHead(s[0], rest, sep);
        [[s[0]] + rest[0]] + rest[1..]
  }

  /** Prefixing the first piece prefixes the joined string. */
  lemma JoinExtendsHead(c: char, parts: seq<string>, sep: char)
    requires |parts| > 0
    ensures Join([[c] + parts[0]] + parts[1..], sep) == [c] + Join(parts, sep)
  {
    assert ([[c] + parts[0]] + parts[1..])[1..] == parts[1..];
  }

  /** strings.Join: the pieces with the separator between neighbours. */
  function Join(parts: seq<string>, sep: char): string
    requires |parts| > 0
  {
    if |parts| == 1 then parts[0] else parts[0] + [sep] + Join(parts[1..], sep)
  }

  /** The position of the first occurrence of c in s. */
  function IndexOf(s: string, c: char): (i: nat)
    requires c in s
    ensures i < |s| && s[i] == c && c !in s[..i]
  {
    if s[0] == c then 0 else 1 + IndexOf(s[1..], c)
  }

  /** Behind a prefix free of c, the first c is the one that follows the prefix. */
  lemma {:induction false} IndexOfBehindFreePrefix(a: string, rest: string, c: char)
    requires c !in a && |rest| > 0 && rest[0] == c
    ensures c in a + rest && IndexOf(a + rest, c) == |a|
  {
    if a != [] {
      assert (a + rest)[1..] == a[1..] + rest;
      IndexOfBehindFreePrefix(a[1..], rest, c);
    }
  }

  /**
   * A separator that occurs in neither prefix marks one place only: two
   * splittings of the same string around a lone separator coincide.
   */
  lemma SeparatorIsUnique(a: string, b: string, x: string, y: string, sep: char)
    requires sep !in a && sep !in x
    requires a + [sep] + b == x + [sep] + y
    ensures a == x && b == y
  {
    var s := a + [sep] + b;
    IndexOfBehindFreePrefix(a, [sep] + b, sep);
    IndexOfBehindFreePrefix(x, [sep] + y, sep);
    assert a + [sep] + b == a + ([sep] + b);
    assert x + [sep] + y == x + ([sep] + y);
    assert a == s[..|a|] == x;
    assert b == s[|a| + 1..] == y;
  }

  /** Splitting "<a>/<b>" at its only separator gives back [a, b]. */
  lemma {:induction false} SplitAtLoneSeparator(a: string, b: string, sep: char)
    requires sep !in a && sep !in b
    ensures Split(a + [sep] + b, sep) == [a, b]
  {
    var s := a + [sep] + b;
    var parts := Split(s, sep);
    assert multiset(s)[sep] == multiset(a)[sep] + multiset([sep])[sep] + multiset(b)[sep];
    assert |parts| == 2;
    assert Join(parts, sep) == parts[0] + [sep] + parts[1];
    SeparatorIsUnique(parts[0], parts[1], a, b, sep);
  }
}
