/**
 * The two string operations the feed code relies on: `String.prototype.includes`
 * (used to classify a URI) and splitting a route path on '/' (the shape the route
 * table has to recognise).
 */
module JsStrings {

  /** `sub` occurs in `s` starting at index `i`. */
  predicate OccursAt(s: string, sub: string, i: int) {
    0 <= i && i + |sub| <= |s| && s[i..i + |sub|] == sub
  }

  /** `s.includes(sub)`: `sub` is a prefix of `s` or of some suffix of `s`. */
  predicate Includes(s: string, sub: string)
    decreases |s|
  {
    sub <= s || (s != [] && Includes(s[1..], sub))
  }

  /** The scan finds `sub` exactly when it occurs somewhere in `s`. */
  lemma {:induction false} IncludesIffOccurs(s: string, sub: string)
    ensures Includes(s, sub) <==> exists i :: OccursAt(s, sub, i)
  {
    if sub <= s {
      assert OccursAt(s, sub, 0);
    }
    if s == [] {
      if exists i :: OccursAt(s, sub, i) {
        var i :| OccursAt(s, sub, i);
        assert sub == [];
      }
    } else {
      IncludesIffOccurs(s[1..], sub);
      if exists i :: OccursAt(s[1..], sub, i) {
        var i :| OccursAt(s[1..], sub, i);
        assert s[1..][i..i + |sub|] == s[i + 1..i + 1 + |sub|];
        assert OccursAt(s, sub, i + 1);
      }
      if exists i :: OccursAt(s, sub, i) {
        var i :| OccursAt(s, sub, i);
        if i == 0 {
          assert sub <= s;
        } else {
          assert s[1..][i - 1..i - 1 + |sub|] == s[i..i + |sub|];
          assert OccursAt(s[1..], sub, i - 1);
        }
      }
    }
  }

  /** A string never includes a longer one. */
  lemma {:induction false} IncludesNoLonger(s: string, sub: string)
    requires Includes(s, sub)
    ensures |sub| <= |s|
  {
    IncludesIffOccurs(s, sub);
  }

  /** An occurrence of `t` inside `s` is an occurrence inside `a + s + b`. */
  lemma IncludesWithin(a: string, s: string, b: string, t: string)
    requires Includes(s, t)
    ensures Includes(a + s + b, t)
  {
    IncludesIffOccurs(s, t);
    var i :| OccursAt(s, t, i);
    assert (a + s + b)[|a| + i..|a| + i + |t|] == s[i..i + |t|];
    assert OccursAt(a + s + b, t, |a| + i);
    IncludesIffOccurs(a + s + b, t);
  }

  /**
   * An occurrence of `t` in `a + [sep] + b` lies in `a`, lies in `b`, or covers
   * the separator (and then `t` contains `sep`).
   */
  lemma IncludesAcrossSeparator(a: string, sep: char, b: string, t: string)
    requires Includes(a + [sep] + b, t)
    ensures Includes(a, t) || Includes(b, t) || sep in t
  {
    var s := a + [sep] + b;
    IncludesIffOccurs(s, t);
    var i :| OccursAt(s, t, i);
    if i + |t| <= |a| {
      assert s[i..i + |t|] == a[i..i + |t|];
      assert OccursAt(a, t, i);
      IncludesIffOccurs(a, t);
    } else if i > |a| {
      var j := i - |a| - 1;
      assert s[i..i + |t|] == b[j..j + |t|];
      assert OccursAt(b, t, j);
      IncludesIffOccurs(b, t);
    } else {
      assert t[|a| - i] == s[|a|] == sep;
    }
  }

  /**
   * When the part before the separator is shorter than a separator-free `t`,
   * `t` occurs in `head + [sep] + tail` exactly when it occurs in `tail`.
   */
  lemma IncludesAfterShortHead(head: string, sep: char, tail: string, t: string)
    requires sep !in t && |head| < |t|
    ensures Includes(head + [sep] + tail, t) <==> Includes(tail, t)
  {
    if Includes(head + [sep] + tail, t) {
      IncludesAcrossSeparator(head, sep, tail, t);
      if Includes(head, t) {
        IncludesNoLonger(head, t);
      }
    }
    if Includes(tail, t) {
      IncludesWithin(head + [sep], tail, [], t);
      assert head + [sep] + tail + [] == head + [sep] + tail;
    }
  }

  /** `s.split(sep)`: the maximal `sep`-free pieces of `s`, in order. */
  function Split(s: string, sep: char): (parts: seq<string>)
    ensures |parts| >= 1
    ensures forall k :: 0 <= k < |parts| ==> sep !in parts[k]
  {
    if s == [] then [[]]
    else
      var rest := Split(s[1..], sep);
      if s[0] == sep then [[]] + rest
      else [[s[0]] + rest[0]] + rest[1..]
  }

  /** `parts.join(sep)`. */
  function Join(parts: seq<string>, sep: char): string
    requires |parts| >= 1
  {
    if |parts| == 1 then parts[0] else parts[0] + [sep] + Join(parts[1..], sep)
  }

  /** Splitting loses nothing: joining the pieces gives the string back. */
  lemma {:induction false} JoinSplit(s: string, sep: char)
    ensures Join(Split(s, sep), sep) == s
  {
    if s != [] {
      var rest := Split(s[1..], sep);
      JoinSplit(s[1..], sep);
      if s[0] == sep {
        assert Split(s, sep)[1..] == rest;
        assert [sep] + s[1..] == s;
      } else if |rest| == 1 {
        assert [s[0]] + s[1..] == s;
      } else {
        var parts := Split(s, sep);
        assert parts[1..] == rest[1..];
        assert Join(rest, sep) == rest[0] + [sep] + Join(rest[1..], sep);
        assert [s[0]] + s[1..] == s;
      }
    }
  }

  /** A `sep`-free string is a single piece. */
  lemma {:induction false} SplitSeparatorFree(a: string, sep: char)
    requires sep !in a
    ensures Split(a, sep) == [a]
  {
    if a != [] {
      SplitSeparatorFree(a[1..], sep);
      assert [a[0]] + a[1..] == a;
    }
  }

  /** A `sep`-free leading piece followed by `sep` splits off as the first piece. */
  lemma {:induction false} SplitAfterPiece(a: string, sep: char, b: string)
    requires sep !in a
    ensures Split(a + [sep] + b, sep) == [a] + Split(b, sep)
  {
    var s := a + [sep] + b;
    if a == [] {
      assert s == [sep] + b && s[1..] == b;
    } else {
      assert s[1..] == a[1..] + [sep] + b;
      SplitAfterPiece(a[1..], sep, b);
      assert [a[0]] + a[1..] == a;
    }
  }
}
