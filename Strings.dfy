/** The JavaScript string primitives the application relies on, on sequences of characters:
    `toLowerCase` (ASCII letters only), `trim`, `includes`, `split` with a string separator,
    and deleting a set of characters (`replace(/[...]/g, '')`). */
module Strings {

  /** The white-space characters `String.prototype.trim` removes (ASCII subset). */
  predicate IsSpace(c: char)
  {
    c == ' ' || c == '\t' || c == '\n' || c == '\r' || c as int == 11 || c as int == 12
  }

  function LowerChar(c: char): char
  {
    if 'A' <= c <= 'Z' then (c as int + 32) as char else c
  }

  /** `s.toLowerCase()`, restricted to the letters A-Z. */
  function Lower(s: string): (r: string)
    ensures |r| == |s|
    ensures forall i :: 0 <= i < |s| ==> r[i] == LowerChar(s[i])
  {
    seq(|s|, i requires 0 <= i < |s| => LowerChar(s[i]))
  }

  lemma LowerIdempotent(s: string)
    ensures Lower(Lower(s)) == Lower(s)
  {
  }

  /** `s` with its leading white space removed. */
  function TrimStart(s: string): (r: string)
    ensures |r| <= |s| && r == s[|s| - |r|..]
    ensures r == [] || !IsSpace(r[0])
    ensures forall i :: 0 <= i < |s| - |r| ==> IsSpace(s[i])
  {
    if s != [] && IsSpace(s[0]) then TrimStart(s[1..]) else s
  }

  /** `s` with its trailing white space removed. */
  function TrimEnd(s: string): (r: string)
    ensures |r| <= |s| && r == s[..|r|]
    ensures r == [] || !IsSpace(r[|r| - 1])
    ensures forall i :: |r| <= i < |s| ==> IsSpace(s[i])
  {
    if s != [] && IsSpace(s[|s| - 1]) then TrimEnd(s[..|s| - 1]) else s
  }

  /** `s.trim()`: neither starts nor ends with white space. */
  function Trim(s: string): (r: string)
    ensures |r| <= |s|
    ensures r == [] || (!IsSpace(r[0]) && !IsSpace(r[|r| - 1]))
  {
    TrimEnd(TrimStart(s))
  }

  /** Trimming yields the empty string exactly for blank strings. */
  lemma {:induction false} TrimEmptyIffBlank(s: string)
    ensures Trim(s) == [] <==> forall i :: 0 <= i < |s| ==> IsSpace(s[i])
  {
    var t := TrimStart(s);
    assert t != [] ==> TrimEnd(t) != [];
  }

  /** Every character is white space (the empty string included). */
  predicate Blank(s: string)
  {
    forall i :: 0 <= i < |s| ==> IsSpace(s[i])
  }

  /** Leading white space in front of a string is dropped with the string's own. */
  lemma {:induction false} TrimStartBlankPrefix(w: string, v: string)
    requires Blank(w)
    ensures TrimStart(w + v) == TrimStart(v)
  {
    if w == [] {
      assert w + v == v;
    } else {
      assert (w + v)[0] == w[0];
      assert (w + v)[1..] == w[1..] + v;
      TrimStartBlankPrefix(w[1..], v);
    }
  }

  /** Trailing white space after a string is dropped with the string's own. */
  lemma {:induction false} TrimEndBlankSuffix(v: string, w: string)
    requires Blank(w)
    ensures TrimEnd(v + w) == TrimEnd(v)
  {
    if w == [] {
      assert v + w == v;
    } else {
      assert (v + w)[|v + w| - 1] == w[|w| - 1];
      assert (v + w)[..|v + w| - 1] == v + w[..|w| - 1];
      TrimEndBlankSuffix(v, w[..|w| - 1]);
    }
  }

  /** Trimming the start of a string that is not blank stops inside it. */
  lemma {:induction false} TrimStartKeepsTail(u: string, w: string)
    requires !Blank(u)
    ensures TrimStart(u + w) == TrimStart(u) + w
  {
    var k :| 0 <= k < |u| && !IsSpace(u[k]);
    assert (u + w)[0] == u[0];
    if IsSpace(u[0]) {
      assert u[1..][k - 1] == u[k];
      assert (u + w)[1..] == u[1..] + w;
      TrimStartKeepsTail(u[1..], w);
    }
  }

  /** `trim` ignores white space added around a string. */
  lemma TrimIgnoresPadding(w1: string, u: string, w2: string)
    requires Blank(w1) && Blank(w2)
    ensures Trim(w1 + u + w2) == Trim(u)
  {
    assert w1 + u + w2 == w1 + (u + w2);
    TrimStartBlankPrefix(w1, u + w2);
    if Blank(u) {
      TrimEmptyIffBlank(u);
      assert Blank(u + w2);
      TrimEmptyIffBlank(u + w2);
    } else {
      TrimStartKeepsTail(u, w2);
      TrimEndBlankSuffix(TrimStart(u), w2);
    }
  }

  /** Lower-casing neither makes nor unmakes white space, so it commutes with `trim`. */
  lemma LowerCharSpace(c: char)
    ensures IsSpace(LowerChar(c)) == IsSpace(c)
  {
  }

  lemma {:induction false} LowerTrimStart(s: string)
    ensures Lower(TrimStart(s)) == TrimStart(Lower(s))
  {
    if s != [] {
      var l := Lower(s);
      LowerCharSpace(s[0]);
      assert l[0] == LowerChar(s[0]);
      if IsSpace(s[0]) {
        assert l[1..] == Lower(s[1..]);
        LowerTrimStart(s[1..]);
      } else {
        assert TrimStart(s) == s && TrimStart(l) == l;
      }
    }
  }

  lemma {:induction false} LowerTrimEnd(s: string)
    ensures Lower(TrimEnd(s)) == TrimEnd(Lower(s))
  {
    if s != [] {
      var l := Lower(s);
      LowerCharSpace(s[|s| - 1]);
      assert l[|l| - 1] == LowerChar(s[|s| - 1]);
      if IsSpace(s[|s| - 1]) {
        assert l[..|l| - 1] == Lower(s[..|s| - 1]);
        LowerTrimEnd(s[..|s| - 1]);
      } else {
        assert TrimEnd(s) == s && TrimEnd(l) == l;
      }
    }
  }

  lemma LowerTrim(s: string)
    ensures Lower(Trim(s)) == Trim(Lower(s))
  {
    LowerTrimStart(s);
    LowerTrimEnd(TrimStart(s));
  }

  /** A string without upper-case letters is its own lower case. */
  lemma LowerOfLowerCase(s: string)
    requires forall i :: 0 <= i < |s| ==> !('A' <= s[i] <= 'Z')
    ensures Lower(s) == s
  {
  }

  predicate StartsWith(s: string, prefix: string)
  {
    |prefix| <= |s| && s[..|prefix|] == prefix
  }

  predicate EndsWith(s: string, suffix: string)
  {
    |suffix| <= |s| && s[|s| - |suffix|..] == suffix
  }

  /** A concatenation ends with its last part. */
  lemma EndsWithLastPart(a: string, b: string)
    ensures EndsWith(a + b, b)
  {
    assert (a + b)[|a + b| - |b|..] == b;
  }

  /** `sub` occurs in `s` starting at position `k`. */
  predicate OccursAt(s: string, sub: string, k: nat)
  {
    k + |sub| <= |s| && s[k..k + |sub|] == sub
  }

  /** In `a + b + c`, `a` comes first and `b` starts right after it. */
  lemma OccursBetween(a: string, b: string, c: string)
    ensures StartsWith(a + b + c, a) && OccursAt(a + b + c, b, |a|)
  {
    assert (a + b + c)[..|a|] == a;
    assert (a + b + c)[|a|..|a| + |b|] == b;
  }

  /** `s.includes(sub)`. */
  predicate Contains(s: string, sub: string)
    decreases |s|
  {
    StartsWith(s, sub) || (s != [] && Contains(s[1..], sub))
  }

  lemma {:induction false} ContainsAt(s: string, sub: string)
    ensures Contains(s, sub) <==> exists k: nat :: OccursAt(s, sub, k)
    decreases |s|
  {
    if StartsWith(s, sub) {
      assert OccursAt(s, sub, 0);
    }
    if s != [] {
      ContainsAt(s[1..], sub);
      if Contains(s[1..], sub) {
        var k: nat :| OccursAt(s[1..], sub, k);
        assert OccursAt(s, sub, k + 1);
      }
      if exists k: nat :: OccursAt(s, sub, k) {
        var k: nat :| OccursAt(s, sub, k);
        if k > 0 {
          assert OccursAt(s[1..], sub, k - 1);
        }
      }
    }
  }

  lemma ContainsEmpty(s: string)
    ensures Contains(s, "")
  {
  }

  /** `s.split(sep)` for a non-empty separator: the pieces between the leftmost
      non-overlapping occurrences of `sep`. */
  function Split(s: string, sep: string): (r: seq<string>)
    requires sep != []
    ensures |r| >= 1
    decreases |s|
  {
    if |s| < |sep| then [s]
    else if s[..|sep|] == sep then [""] + Split(s[|sep|..], sep)
    else
      var rest := Split(s[1..], sep);
      [[s[0]] + rest[0]] + rest[1..]
  }

  /** Every character of every piece comes from the string that was split. */
  lemma {:induction false} SplitChars(s: string, sep: string)
    requires sep != []
    ensures forall p, c :: p in Split(s, sep) && c in p ==> c in s
    decreases |s|
  {
    if |s| < |sep| {
    } else if s[..|sep|] == sep {
      SplitChars(s[|sep|..], sep);
      assert forall c :: c in s[|sep|..] ==> c in s;
    } else {
      var rest := Split(s[1..], sep);
      SplitChars(s[1..], sep);
      assert forall c :: c in s[1..] ==> c in s;
      assert forall p :: p in rest[1..] ==> p in rest;
      assert rest[0] in rest;
    }
  }

  /** `pieces.join(sep)`. */
  function Join(pieces: seq<string>, sep: string): string
    requires |pieces| >= 1
  {
    if |pieces| == 1 then pieces[0] else pieces[0] + sep + Join(pieces[1..], sep)
  }

  /** Splitting loses nothing: joining the pieces again gives back the original string. */
  lemma {:induction false} JoinSplit(s: string, sep: string)
    requires sep != []
    ensures Join(Split(s, sep), sep) == s
    decreases |s|
  {
    if |s| < |sep| {
    } else if s[..|sep|] == sep {
      JoinSplit(s[|sep|..], sep);
      assert s == "" + sep + s[|sep|..];
    } else {
      var rest := Split(s[1..], sep);
      var pieces := [[s[0]] + rest[0]] + rest[1..];
      assert Split(s, sep) == pieces;
      JoinSplit(s[1..], sep);
      assert s == [s[0]] + s[1..];
      if |rest| == 1 {
        assert Join(pieces, sep) == [s[0]] + rest[0];
      } else {
        assert pieces[1..] == rest[1..];
        assert Join(rest, sep) == rest[0] + sep + Join(rest[1..], sep);
        assert Join(pieces, sep) == ([s[0]] + rest[0]) + sep + Join(rest[1..], sep);
      }
    }
  }

  /** `s` with every character of `drop` deleted. */
  function RemoveChars(s: string, drop: set<char>): (r: string)
    ensures |r| <= |s|
    ensures forall i :: 0 <= i < |r| ==> r[i] !in drop
    ensures forall c :: c in s && c !in drop ==> c in r
  {
    if s == [] then []
    else (if s[0] in drop then [] else [s[0]]) + RemoveChars(s[1..], drop)
  }
}
