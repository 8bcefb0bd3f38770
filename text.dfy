/** String facts the tool relies on: Python's ordering of `str` (used by
    `sorted`), a prefix test, the last component of a path (`Path.name`), and
    splitting a command string into words. */
module Text {

  /** Python's `a <= b` on `str`: code points compared left to right, and a
      proper prefix sorts first. */
  predicate AtMost(a: string, b: string)
    decreases |a|
  {
    |a| == 0 || (|b| > 0 && (a[0] < b[0] || (a[0] == b[0] && AtMost(a[1..], b[1..]))))
  }

  /** Python's `a < b` on `str`. */
  predicate Before(a: string, b: string) {
    AtMost(a, b) && a != b
  }

  lemma {:induction false} AtMostTotal(a: string, b: string)
    ensures AtMost(a, b) || AtMost(b, a)
    decreases |a|
  {
    if |a| > 0 && |b| > 0 && a[0] == b[0] {
      AtMostTotal(a[1..], b[1..]);
    }
  }

  lemma {:induction false} AtMostAntisymmetric(a: string, b: string)
    requires AtMost(a, b) && AtMost(b, a)
    ensures a == b
    decreases |a|
  {
    if |a| > 0 {
      AtMostAntisymmetric(a[1..], b[1..]);
      assert a == [a[0]] + a[1..];
      assert b == [b[0]] + b[1..];
    }
  }

  lemma {:induction false} AtMostTransitive(a: string, b: string, c: string)
    requires AtMost(a, b) && AtMost(b, c)
    ensures AtMost(a, c)
    decreases |a|
  {
    if |a| > 0 && a[0] == b[0] && b[0] == c[0] {
      AtMostTransitive(a[1..], b[1..], c[1..]);
    }
  }

  lemma {:induction false} AtMostReflexive(a: string)
    ensures AtMost(a, a)
    decreases |a|
  {
    if |a| > 0 {
      AtMostReflexive(a[1..]);
    }
  }

  /** `m` is the element `min(s)` would return. */
  predicate IsLeast(m: string, s: set<string>) {
    m in s && forall y | y in s :: AtMost(m, y)
  }

  lemma {:induction false} LeastExists(s: set<string>)
    requires s != {}
    ensures exists m :: IsLeast(m, s)
    decreases s
  {
    var x :| x in s;
    AtMostReflexive(x);
    if s == {x} {
      assert IsLeast(x, s);
    } else {
      LeastExists(s - {x});
      var m :| IsLeast(m, s - {x});
      AtMostTotal(x, m);
      if AtMost(x, m) {
        forall y | y in s
          ensures AtMost(x, y)
        {
          if y != x {
            AtMostTransitive(x, m, y);
          }
        }
        assert IsLeast(x, s);
      } else {
        assert IsLeast(m, s);
      }
    }
  }

  lemma LeastUnique(s: set<string>)
    ensures forall m, m' :: IsLeast(m, s) && IsLeast(m', s) ==> m == m'
  {
    forall m, m' | IsLeast(m, s) && IsLeast(m', s)
      ensures m == m'
    {
      AtMostAntisymmetric(m, m');
    }
  }

  /** Strictly increasing in Python's order, hence without repetitions. */
  predicate Ascending(r: seq<string>) {
    forall i, j | 0 <= i < j < |r| :: Before(r[i], r[j])
  }

  /** Python's `sorted(s)` for a set of strings. */
  function SortedSeq(s: set<string>): (r: seq<string>)
    ensures Ascending(r)
    ensures forall x :: x in r <==> x in s
    ensures |r| == |s|
    decreases s
  {
    if s == {} then []
    else
      LeastExists(s);
      LeastUnique(s);
      var m :| IsLeast(m, s);
      [m] + SortedSeq(s - {m})
  }

  /** Two ascending sequences over the same strings are the same sequence:
      the order in which names are listed is fully determined. */
  lemma {:induction false} AscendingUnique(r: seq<string>, t: seq<string>)
    requires Ascending(r) && Ascending(t)
    requires forall x :: x in r <==> x in t
    ensures r == t
    decreases |r|
  {
    if |r| > 0 {
      assert r[0] in r;
    }
    if |t| > 0 {
      assert t[0] in t;
    }
    if |r| > 0 && |t| > 0 {
      if r[0] != t[0] {
        var i :| 0 <= i < |t| && t[i] == r[0];
        var j :| 0 <= j < |r| && r[j] == t[0];
        assert Before(t[0], r[0]) by { assert 0 < i; }
        assert Before(r[0], t[0]) by { assert 0 < j; }
        AtMostAntisymmetric(r[0], t[0]);
      }
      forall x
        ensures x in r[1..] <==> x in t[1..]
      {
        if x in r[1..] {
          var k :| 0 <= k < |r[1..]| && r[1..][k] == x;
          assert r[k + 1] == x && x in r;
          var l :| 0 <= l < |t| && t[l] == x;
          assert Before(r[0], r[k + 1]);
          assert l != 0;
          assert t[1..][l - 1] == x;
        }
        if x in t[1..] {
          var k :| 0 <= k < |t[1..]| && t[1..][k] == x;
          assert t[k + 1] == x && x in t;
          var l :| 0 <= l < |r| && r[l] == x;
          assert Before(t[0], t[k + 1]);
          assert l != 0;
          assert r[1..][l - 1] == x;
        }
      }
      AscendingUnique(r[1..], t[1..]);
      assert r == [r[0]] + r[1..];
      assert t == [t[0]] + t[1..];
    }
  }

  /** Python's `s.startswith(p)`. */
  predicate StartsWith(s: string, p: string) {
    |p| <= |s| && s[..|p|] == p
  }

  /** `Path(p).name` for a resolved path: the text after the last `/`
      (empty for the root directory `/`). */
  function LastComponent(p: string): (r: string)
    ensures '/' !in r
    ensures |r| <= |p| && r == p[|p| - |r|..]
    ensures |r| < |p| ==> p[|p| - |r| - 1] == '/'
  {
    if |p| == 0 then ""
    else if p[|p| - 1] == '/' then ""
    else
      var r' := LastComponent(p[..|p| - 1]);
      assert p[..|p| - 1][|p| - 1 - |r'|..] == p[|p| - 1 - |r'|..|p| - 1];
      r' + [p[|p| - 1]]
  }

  /** `" ".join(words)`. */
  function Join(words: seq<string>): string
    decreases |words|
  {
    if |words| == 0 then ""
    else if |words| == 1 then words[0]
    else words[0] + " " + Join(words[1..])
  }

  /** `s.split(" ")`: the pieces between single spaces. */
  function Split(s: string): (r: seq<string>)
    ensures |r| > 0
    decreases |s|
  {
    if |s| == 0 then [""]
    else if s[0] == ' ' then [""] + Split(s[1..])
    else
      var rest := Split(s[1..]);
      [[s[0]] + rest[0]] + rest[1..]
  }

  lemma {:induction false} SplitWordThen(w: string, tail: string)
    requires ' ' !in w
    ensures Split(w + tail) == [w + Split(tail)[0]] + Split(tail)[1..]
    decreases |w|
  {
    if |w| > 0 {
      SplitWordThen(w[1..], tail);
      assert (w + tail)[1..] == w[1..] + tail;
      assert [w[0]] + (w[1..] + Split(tail)[0]) == w + Split(tail)[0];
    } else {
      assert w + tail == tail;
      assert w + Split(tail)[0] == Split(tail)[0];
      assert Split(tail) == [Split(tail)[0]] + Split(tail)[1..];
    }
  }

  /** Splitting the joined words gives the words back when none contains a space. */
  lemma {:induction false} SplitJoin(words: seq<string>)
    requires |words| > 0
    requires forall k | 0 <= k < |words| :: ' ' !in words[k]
    ensures Split(Join(words)) == words
    decreases |words|
  {
    if |words| == 1 {
      SplitWordThen(words[0], "");
      assert words[0] + "" == words[0];
    } else {
      var tail := " " + Join(words[1..]);
      assert Join(words) == words[0] + tail;
      SplitWordThen(words[0], tail);
      SplitJoin(words[1..]);
      assert tail[0] == ' ' && tail[1..] == Join(words[1..]);
      assert Split(tail) == [""] + Split(Join(words[1..]));
      assert words[0] + "" == words[0];
      assert words == [words[0]] + words[1..];
    }
  }
}
