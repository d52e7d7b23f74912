/** The JavaScript string operations the lead pipeline relies on, on `seq<char>`:
    `split` with a one-character separator (with and without a limit),
    `replace(/\s/g, '')`, and the prefix/suffix/infix relations used to state
    what a rendered payload looks like.
 */
module JsStrings {

  /** A character matched by the regular-expression class `\s` of ECMAScript:
      the ASCII controls TAB..CR, SPACE, NO-BREAK SPACE, the Unicode space
      separators, LINE and PARAGRAPH SEPARATOR, and the byte-order mark. */
  predicate IsWhitespace(c: char) {
    var n := c as int;
    || (0x09 <= n <= 0x0D)
    || n == 0x20
    || n == 0xA0
    || n == 0x1680
    || (0x2000 <= n <= 0x200A)
    || n == 0x2028
    || n == 0x2029
    || n == 0x202F
    || n == 0x205F
    || n == 0x3000
    || n == 0xFEFF
  }

  predicate HasNoWhitespace(s: string) {
    forall i :: 0 <= i < |s| ==> !IsWhitespace(s[i])
  }

  /** `s.replace(/\s/g, '')`: every whitespace character removed, the rest kept in order. */
  function StripWhitespace(s: string): (r: string)
    ensures HasNoWhitespace(r)
    ensures |r| <= |s|
    decreases |s|
  {
    if s == [] then []
    else (if IsWhitespace(s[0]) then [] else [s[0]]) + StripWhitespace(s[1..])
  }

  /** Stripping distributes over concatenation: it works character by character. */
  lemma {:induction false} StripAppend(a: string, b: string)
    ensures StripWhitespace(a + b) == StripWhitespace(a) + StripWhitespace(b)
    decreases |a|
  {
    if a == [] {
      assert a + b == b;
    } else {
      var head := if IsWhitespace(a[0]) then [] else [a[0]];
      assert (a + b)[0] == a[0];
      assert (a + b)[1..] == a[1..] + b;
      assert StripWhitespace(a + b) == head + StripWhitespace(a[1..] + b);
      StripAppend(a[1..], b);
      assert StripWhitespace(a) == head + StripWhitespace(a[1..]);
      assert head + (StripWhitespace(a[1..]) + StripWhitespace(b)) == (head + StripWhitespace(a[1..])) + StripWhitespace(b);
    }
  }

  /** On one character stripping drops it when it is whitespace and keeps it
      otherwise; with `StripAppend` this fixes the result on every string. */
  lemma StripChar(c: char)
    ensures StripWhitespace([c]) == if IsWhitespace(c) then [] else [c]
  {
    assert [c][1..] == [];
  }

  /** A character survives stripping exactly when it occurs in the input and
      is not whitespace. */
  lemma {:induction false} StripKeeps(s: string, c: char)
    ensures c in StripWhitespace(s) <==> c in s && !IsWhitespace(c)
    decreases |s|
  {
    if s != [] {
      StripKeeps(s[1..], c);
      assert s == [s[0]] + s[1..];
    }
  }

  /** Stripping leaves a string unchanged exactly when it has no whitespace. */
  lemma {:induction false} StripIdentity(s: string)
    ensures StripWhitespace(s) == s <==> HasNoWhitespace(s)
    decreases |s|
  {
    if s != [] {
      StripIdentity(s[1..]);
      if HasNoWhitespace(s) {
        assert HasNoWhitespace(s[1..]) by {
          forall i | 0 <= i < |s[1..]| ensures !IsWhitespace(s[1..][i]) {
            assert s[1..][i] == s[i + 1];
          }
        }
      }
    }
  }

  /** Number of occurrences of `c` in `s`. */
  function CountChar(s: string, c: char): nat
    decreases |s|
  {
    if s == [] then 0
    else (if s[0] == c then 1 else 0) + CountChar(s[1..], c)
  }

  lemma {:induction false} CountAppend(a: string, b: string, c: char)
    ensures CountChar(a + b, c) == CountChar(a, c) + CountChar(b, c)
    decreases |a|
  {
    if a == [] {
      assert a + b == b;
    } else {
      assert (a + b)[0] == a[0];
      assert (a + b)[1..] == a[1..] + b;
      CountAppend(a[1..], b, c);
    }
  }

  lemma {:induction false} CountAbsent(s: string, c: char)
    requires c !in s
    ensures CountChar(s, c) == 0
    decreases |s|
  {
    if s != [] {
      assert s[0] in s;
      assert forall x :: x in s[1..] ==> x in s;
      CountAbsent(s[1..], c);
    }
  }

  /** `s.indexOf(c)`: the first index of `c`, or -1. */
  function IndexOf(s: string, c: char): (r: int)
    ensures -1 <= r < |s|
    ensures r == -1 <==> c !in s
    ensures r >= 0 ==> s[r] == c && c !in s[..r]
    decreases |s|
  {
    if s == [] then -1
    else if s[0] == c then 0
    else
      var k := IndexOf(s[1..], c);
      if k == -1 then (assert forall x :: x in s ==> x == s[0] || x in s[1..]; -1)
      else (assert s[..k + 1] == [s[0]] + s[1..][..k]; k + 1)
  }

  /** `s.split(sep)` for a one-character separator: the maximal separator-free
      pieces between separators. The empty string splits into one empty piece,
      and there is always one piece more than there are separators. */
  function Split(s: string, sep: char): (r: seq<string>)
    ensures |r| == CountChar(s, sep) + 1
    ensures forall i :: 0 <= i < |r| ==> sep !in r[i]
    decreases |s|
  {
    if s == [] then [""]
    else
      var rest := Split(s[1..], sep);
      if s[0] == sep then [""] + rest
      else [[s[0]] + rest[0]] + rest[1..]
  }

  /** `pieces.join(sep)`, the inverse of `Split`. */
  function Join(pieces: seq<string>, sep: char): string
    decreases |pieces|
  {
    if |pieces| == 0 then ""
    else if |pieces| == 1 then pieces[0]
    else pieces[0] + [sep] + Join(pieces[1..], sep)
  }

  /** `s.split(sep, limit)`: the first `limit` pieces of the full split. */
  function SplitLimit(s: string, sep: char, limit: nat): (r: seq<string>)
    ensures |r| <= limit && |r| <= |Split(s, sep)|
    ensures |r| == limit || r == Split(s, sep)
    ensures r == Split(s, sep)[..|r|]
  {
    var pieces := Split(s, sep);
    if |pieces| <= limit then pieces else pieces[..limit]
  }

  /** A separator-free string is a single piece. */
  lemma {:induction false} SplitNoSeparator(s: string, sep: char)
    requires sep !in s
    ensures Split(s, sep) == [s]
    decreases |s|
  {
    if s != [] {
      assert s[0] in s;
      assert forall x :: x in s[1..] ==> x in s;
      SplitNoSeparator(s[1..], sep);
      assert s == [s[0]] + s[1..];
    }
  }

  /** Splitting around one separator splits both sides independently. */
  lemma {:induction false} SplitAround(a: string, b: string, sep: char)
    ensures Split(a + [sep] + b, sep) == Split(a, sep) + Split(b, sep)
    decreases |a|
  {
    var s := a + [sep] + b;
    if a == [] {
      assert s == [sep] + b;
      assert s[1..] == b;
    } else {
      assert s[0] == a[0];
      assert s[1..] == a[1..] + [sep] + b;
      SplitAround(a[1..], b, sep);
    }
  }

  /** Joining the pieces of a split gives back the original string. */
  lemma {:induction false} JoinSplit(s: string, sep: char)
    ensures Join(Split(s, sep), sep) == s
    decreases |s|
  {
    if s != [] {
      var rest := Split(s[1..], sep);
      JoinSplit(s[1..], sep);
      if s[0] == sep {
        assert ([""] + rest)[1..] == rest;
        assert s == [sep] + s[1..];
      } else {
        var r := [[s[0]] + rest[0]] + rest[1..];
        assert r[1..] == rest[1..];
        if |rest| == 1 {
          assert s == [s[0]] + s[1..];
        } else {
          assert Join(rest, sep) == rest[0] + [sep] + Join(rest[1..], sep);
          assert s == [s[0]] + s[1..];
        }
      }
    }
  }

  /** Splitting a join of separator-free pieces gives back the pieces. */
  lemma {:induction false} SplitJoin(pieces: seq<string>, sep: char)
    requires |pieces| >= 1
    requires forall i :: 0 <= i < |pieces| ==> sep !in pieces[i]
    ensures Split(Join(pieces, sep), sep) == pieces
    decreases |pieces|
  {
    SplitNoSeparator(pieces[0], sep);
    if |pieces| > 1 {
      SplitJoin(pieces[1..], sep);
      SplitAround(pieces[0], Join(pieces[1..], sep), sep);
      assert pieces == [pieces[0]] + pieces[1..];
    }
  }

  predicate StartsWith(s: string, prefix: string) {
    |prefix| <= |s| && s[..|prefix|] == prefix
  }

  predicate EndsWith(s: string, suffix: string) {
    |suffix| <= |s| && s[|s| - |suffix|..] == suffix
  }

  /** `t` occurs in `s` starting at index `i`. */
  predicate OccursAt(s: string, t: string, i: int) {
    0 <= i <= |s| - |t| && s[i..i + |t|] == t
  }

  /** `t` occurs contiguously somewhere in `s`. */
  ghost predicate Contains(s: string, t: string) {
    exists i :: OccursAt(s, t, i)
  }

  lemma ContainsMiddle(a: string, t: string, b: string)
    ensures Contains(a + t + b, t)
  {
    var s := a + t + b;
    assert s[|a|..|a| + |t|] == t;
    assert OccursAt(s, t, |a|);
  }

  /** Occurrence is transitive: a piece of a piece of `s` is a piece of `s`. */
  lemma ContainsTransitive(s: string, u: string, t: string)
    requires Contains(s, u) && Contains(u, t)
    ensures Contains(s, t)
  {
    var i :| OccursAt(s, u, i);
    var j :| OccursAt(u, t, j);
    var w := s[i + j..i + j + |t|];
    forall k | 0 <= k < |t| ensures w[k] == t[k] {
      assert s[i..i + |u|][j + k] == u[j + k];
      assert u[j..j + |t|][k] == t[k];
    }
    assert w == t;
    assert OccursAt(s, t, i + j);
  }

  lemma StartsWithAppend(p: string, rest: string)
    ensures StartsWith(p + rest, p)
  {
    assert (p + rest)[..|p|] == p;
  }

  lemma EndsWithAppend(rest: string, q: string)
    ensures EndsWith(rest + q, q)
  {
    assert (rest + q)[|rest + q| - |q|..] == q;
  }

  /** `t` is contained in `a + t + b`, whichever way that sum is associated. */
  lemma ContainsAt(s: string, a: string, t: string, b: string)
    requires s == a + t + b
    ensures Contains(s, t)
  {
    ContainsMiddle(a, t, b);
  }

  /** `t` is contained in `a + t`. */
  lemma ContainsEnd(s: string, a: string, t: string)
    requires s == a + t
    ensures Contains(s, t)
  {
    ContainsMiddle(a, t, "");
    assert a + t + "" == a + t;
  }

  /** `t` is contained in `t + b`. */
  lemma ContainsStart(s: string, t: string, b: string)
    requires s == t + b
    ensures Contains(s, t)
  {
    ContainsMiddle("", t, b);
    assert "" + t + b == t + b;
  }
}
