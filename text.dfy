/** The two string operations of JavaScript the core relies on:
    `String.prototype.split` on a one-character separator and
    `Array.prototype.join`. */
module Text {

  predicate StartsWith(s: string, prefix: string) {
    |prefix| <= |s| && s[..|prefix|] == prefix
  }

  /** `parts.join(sep)`: the parts with `sep` between consecutive ones. */
  function Join(parts: seq<string>, sep: string): string
  {
    if |parts| == 0 then ""
    else if |parts| == 1 then parts[0]
    else parts[0] + sep + Join(parts[1..], sep)
  }

  /** `join` of a list of at least two parts: the first, the separator, and
      the join of the rest. */
  lemma JoinCons(x: string, rest: seq<string>, sep: string)
    requires |rest| > 0
    ensures Join([x] + rest, sep) == x + (sep + Join(rest, sep))
  {
    assert ([x] + rest)[1..] == rest;
    assert x + sep + Join(rest, sep) == x + (sep + Join(rest, sep));
  }

  /** `s.split(sep)`: the maximal separator-free pieces of `s`, including empty
      ones between adjacent separators and at either end. Joining them with the
      separator gives `s` back. */
  function Split(s: string, sep: char): (parts: seq<string>)
    ensures |parts| >= 1
    ensures forall i :: 0 <= i < |parts| ==> sep !in parts[i]
    ensures Join(parts, [sep]) == s
    decreases |s|
  {
    if |s| == 0 then [""]
    else
      var rest := Split(s[1..], sep);
      if s[0] == sep then
        assert Join([""] + rest, [sep]) == [sep] + Join(rest, [sep]) by {
          assert ([""] + rest)[1..] == rest;
        }
        [""] + rest
      else
        var first := [s[0]] + rest[0];
        assert Join([first] + rest[1..], [sep]) == [s[0]] + Join(rest, [sep]) by {
          assert ([first] + rest[1..])[1..] == rest[1..];
        }
        [first] + rest[1..]
  }

  /** A string without the separator splits into itself alone. */
  lemma {:induction false} SplitWithoutSeparator(s: string, sep: char)
    requires sep !in s
    ensures Split(s, sep) == [s]
    decreases |s|
  {
    if |s| > 0 {
      SplitWithoutSeparator(s[1..], sep);
      assert [s[0]] + s[1..] == s;
    }
  }

  /** Splitting `a + sep + b`, where `a` has no separator, gives `a` and then
      the pieces of `b`. */
  lemma {:induction false} SplitAtFirstSeparator(a: string, b: string, sep: char)
    requires sep !in a
    ensures Split(a + [sep] + b, sep) == [a] + Split(b, sep)
    decreases |a|
  {
    var s := a + [sep] + b;
    if |a| == 0 {
      assert s[1..] == b;
    } else {
      assert s[1..] == a[1..] + [sep] + b;
      SplitAtFirstSeparator(a[1..], b, sep);
      assert [a[0]] + a[1..] == a;
    }
  }

  /** When `s` splits into more than one piece, it reads: the first piece, the
      separator, the second piece, and then either nothing or the separator. */
  lemma SplitSecondPart(s: string, sep: char)
    requires |Split(s, sep)| > 1
    ensures var p := Split(s, sep); var k := |p[0]|; var n := k + 1 + |p[1]|;
      n <= |s| && s[..k] == p[0] && s[k] == sep && s[k + 1..n] == p[1] && (n == |s| || s[n] == sep)
  {
    var p := Split(s, sep);
    assert p == [p[0]] + p[1..];
    JoinCons(p[0], p[1..], [sep]);
    if |p| == 2 {
      assert s == p[0] + [sep] + p[1];
    } else {
      assert p[1..] == [p[1]] + p[2..];
      JoinCons(p[1], p[2..], [sep]);
      assert s == p[0] + [sep] + p[1] + ([sep] + Join(p[2..], [sep]));
    }
  }

  /** Conversely, a separator-free `a`, the separator, a separator-free `b`
      and a tail that is empty or starts with the separator split into `a`,
      `b` and the pieces of the tail. */
  lemma SplitSecondPartOf(a: string, b: string, rest: string, sep: char)
    requires sep !in a && sep !in b && (rest == [] || rest[0] == sep)
    ensures var p := Split(a + [sep] + b + rest, sep); |p| > 1 && p[0] == a && p[1] == b
  {
    assert a + [sep] + b + rest == a + [sep] + (b + rest);
    SplitAtFirstSeparator(a, b + rest, sep);
    if rest == [] {
      assert b + rest == b;
      SplitWithoutSeparator(b, sep);
    } else {
      assert b + rest == b + [sep] + rest[1..];
      SplitAtFirstSeparator(b, rest[1..], sep);
    }
  }
}
