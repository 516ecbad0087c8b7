/** The string operations the pipeline relies on: `"|".join(parts)`, `s.split("|")`
    and the substring test behind `str.contains`. */
module Text {

  const Sep: char := '|'

  /** `"|".join(parts)`. */
  function Join(parts: seq<string>): (r: string)
    ensures |parts| == 0 ==> r == ""
    ensures |parts| >= 1 ==> |parts[0]| <= |r| && r[..|parts[0]|] == parts[0]
    ensures Occurrences(r, Sep) + 1 >= |parts|
  {
    if |parts| == 0 then ""
    else if |parts| == 1 then parts[0]
    else
      var rest := Join(parts[1..]);
      OccurrencesAppend(parts[0] + [Sep], rest, Sep);
      OccurrencesAppend(parts[0], [Sep], Sep);
      assert Occurrences([Sep], Sep) == 1 by { assert [Sep][1..] == []; }
      assert (parts[0] + [Sep] + rest)[..|parts[0]|] == parts[0];
      parts[0] + [Sep] + rest
  }

  /** `s.split("|")`: always at least one part; an empty string splits into `[""]`. */
  function Split(s: string): (r: seq<string>)
    ensures |r| >= 1
    ensures forall i :: 0 <= i < |r| ==> Sep !in r[i]
  {
    if s == [] then [""]
    else
      var rest := Split(s[1..]);
      if s[0] == Sep then [""] + rest else [[s[0]] + rest[0]] + rest[1..]
  }

  /** The number of times `c` occurs in `s`. */
  function Occurrences(s: string, c: char): nat {
    if s == [] then 0 else (if s[0] == c then 1 else 0) + Occurrences(s[1..], c)
  }

  /** `sub in s`, which is what `str.contains(sub)` tests for a pattern without regular-expression
      metacharacters (all the patterns the reports use). */
  predicate Contains(s: string, sub: string): (b: bool)
    ensures b ==> |sub| <= |s|
    ensures b <==> exists i :: 0 <= i && i + |sub| <= |s| && s == s[..i] + sub + s[i + |sub|..]
  {
    assert forall i :: 0 <= i && i + |sub| <= |s| ==> (OccursAt(s, sub, i) <==> s == s[..i] + sub + s[i + |sub|..]) by {
      forall i | 0 <= i && i + |sub| <= |s| ensures OccursAt(s, sub, i) <==> s == s[..i] + sub + s[i + |sub|..] {
        Surrounded(s, sub, i);
      }
    }
    exists i | 0 <= i <= |s| - |sub| :: OccursAt(s, sub, i)
  }

  /** `sub` occurs at `i` exactly when `s` is what precedes `i`, then `sub`, then the rest. */
  lemma Surrounded(s: string, sub: string, i: nat)
    requires i + |sub| <= |s|
    ensures OccursAt(s, sub, i) <==> s == s[..i] + sub + s[i + |sub|..]
  {
    var t := s[..i] + sub + s[i + |sub|..];
    assert t[i..i + |sub|] == sub;
    assert s == s[..i] + s[i..i + |sub|] + s[i + |sub|..];
  }

  /** A string contains every piece it is built around. */
  lemma ContainsInside(a: string, sub: string, b: string)
    ensures Contains(a + sub + b, sub)
  {
    var s := a + sub + b;
    assert s[..|a|] == a && s[|a| + |sub|..] == b;
  }

  predicate OccursAt(s: string, sub: string, i: nat)
    requires i + |sub| <= |s|
  {
    s[i..i + |sub|] == sub
  }

  lemma {:induction false} OccurrencesAppend(a: string, b: string, c: char)
    ensures Occurrences(a + b, c) == Occurrences(a, c) + Occurrences(b, c)
  {
    if a != [] {
      assert (a + b)[1..] == a[1..] + b;
      OccurrencesAppend(a[1..], b, c);
    } else {
      assert a + b == b;
    }
  }

  /** Splitting yields one more part than there are separators. */
  lemma {:induction false} SplitCount(s: string)
    ensures |Split(s)| == Occurrences(s, Sep) + 1
  {
    if s != [] {
      SplitCount(s[1..]);
    }
  }

  /** A string without a separator splits into itself. */
  lemma {:induction false} SplitPlain(s: string)
    requires Sep !in s
    ensures Split(s) == [s]
  {
    if s != [] {
      SplitPlain(s[1..]);
      assert [s[0]] + s[1..] == s;
    }
  }

  lemma SplitCons(c: char, t: string)
    ensures Split([c] + t) == if c == Sep then [""] + Split(t) else [[c] + Split(t)[0]] + Split(t)[1..]
  {
    assert ([c] + t)[1..] == t;
  }

  /** Splitting at a separator splits the two sides independently. */
  lemma {:induction false} SplitAtSep(a: string, b: string)
    ensures Split(a + [Sep] + b) == Split(a) + Split(b)
  {
    if a == [] {
      assert a + [Sep] + b == [Sep] + b;
      SplitCons(Sep, b);
    } else {
      var t := a[1..] + [Sep] + b;
      assert a + [Sep] + b == [a[0]] + t;
      assert a == [a[0]] + a[1..];
      SplitAtSep(a[1..], b);
      SplitCons(a[0], t);
      SplitCons(a[0], a[1..]);
      ConsAppend(a[0], Split(a[1..]), Split(b));
    }
  }

  /** The list step of `SplitCons` commutes with appending further parts. */
  lemma ConsAppend(c: char, ra: seq<string>, rb: seq<string>)
    requires |ra| >= 1
    ensures (if c == Sep then [""] + (ra + rb) else [[c] + (ra + rb)[0]] + (ra + rb)[1..]) ==
      (if c == Sep then [""] + ra else [[c] + ra[0]] + ra[1..]) + rb
  {
    if c != Sep {
      assert (ra + rb)[1..] == ra[1..] + rb;
    }
  }

  /** Round trip one way: splitting a join gives back the parts, when there is at least
      one part and no part contains the separator. */
  lemma {:induction false} SplitJoin(parts: seq<string>)
    requires |parts| >= 1
    requires forall i :: 0 <= i < |parts| ==> Sep !in parts[i]
    ensures Split(Join(parts)) == parts
  {
    if |parts| == 1 {
      SplitPlain(parts[0]);
    } else {
      SplitJoin(parts[1..]);
      SplitAtSep(parts[0], Join(parts[1..]));
      SplitPlain(parts[0]);
      assert parts == [parts[0]] + parts[1..];
    }
  }

  /** Round trip the other way: joining the parts of a split rebuilds the string, always. */
  lemma {:induction false} JoinSplit(s: string)
    ensures Join(Split(s)) == s
  {
    if s != [] {
      var rest := Split(s[1..]);
      JoinSplit(s[1..]);
      if s[0] == Sep {
        assert Split(s) == [""] + rest;
        assert ([""] + rest)[1..] == rest;
        assert s == [Sep] + s[1..];
      } else {
        var r := Split(s);
        assert r == [[s[0]] + rest[0]] + rest[1..];
        if |rest| == 1 {
          assert s == [s[0]] + s[1..];
        } else {
          assert r[1..] == rest[1..];
          assert s == [s[0]] + s[1..];
        }
      }
    }
  }

  /** Joining n parts free of separators inserts exactly n - 1 separators. */
  lemma {:induction false} JoinSeparators(parts: seq<string>)
    requires |parts| >= 1
    requires forall i :: 0 <= i < |parts| ==> Sep !in parts[i]
    ensures Occurrences(Join(parts), Sep) == |parts| - 1
  {
    SplitJoin(parts);
    SplitCount(Join(parts));
  }
}
