/** String primitives of PHP and WordPress that the subscription code relies on:
    ASCII case folding (as stripos does it), substring search (strpos),
    explode, implode, array_filter on strings and trailingslashit. */
module PhpStrings {

  /** ASCII lower-casing of one character, as PHP's case-insensitive search folds it. */
  function LowerChar(c: char): char {
    if 'A' <= c <= 'Z' then (c as int + 32) as char else c
  }

  /** Lower-case copy of a string. */
  function Lower(s: string): (r: string)
    ensures |r| == |s|
    ensures forall i :: 0 <= i < |s| ==> r[i] == LowerChar(s[i])
  {
    seq(|s|, i requires 0 <= i < |s| => LowerChar(s[i]))
  }

  predicate IsLowercase(s: string) {
    forall i :: 0 <= i < |s| ==> !('A' <= s[i] <= 'Z')
  }

  lemma LowerOfLowercase(s: string)
    requires IsLowercase(s)
    ensures Lower(s) == s
  {
  }

  /** `t` occurs in `s` starting at index `i`. */
  predicate OccursAt(s: string, t: string, i: int) {
    0 <= i && i + |t| <= |s| && s[i..i + |t|] == t
  }

  /** `strpos(s, t) !== false`: `t` is a substring of `s`. An empty needle is found
      in every haystack, and a needle longer than the haystack in none. */
  predicate Contains(s: string, t: string)
    ensures t == [] ==> Contains(s, t)
    ensures t <= s ==> Contains(s, t)
    ensures Contains(s, t) ==> |t| <= |s|
  {
    assert t <= s ==> OccursAt(s, t, 0);
    exists i | 0 <= i <= |s| - |t| :: OccursAt(s, t, i)
  }

  /** `stripos(s, t) !== false`: the case-insensitive substring test. Every
      case-sensitive match is also a case-insensitive one. */
  predicate ContainsCI(s: string, t: string)
    ensures Contains(s, t) ==> ContainsCI(s, t)
    ensures ContainsCI(s, t) ==> |t| <= |s|
  {
    CaseSensitiveMatchFolds(s, t);
    Contains(Lower(s), Lower(t))
  }

  /** Lower-casing both strings keeps an occurrence in place. */
  lemma CaseSensitiveMatchFolds(s: string, t: string)
    ensures Contains(s, t) ==> Contains(Lower(s), Lower(t))
  {
    if !Contains(s, t) {
      return;
    }
    var i :| 0 <= i <= |s| - |t| && OccursAt(s, t, i);
    forall k | 0 <= k < |t|
      ensures Lower(s)[i + k] == Lower(t)[k]
    {
      assert s[i + k] == s[i..i + |t|][k];
    }
    assert Lower(s)[i..i + |t|] == Lower(t);
    assert OccursAt(Lower(s), Lower(t), i);
  }

  /** On lower-case text the case-insensitive search is the plain one. */
  lemma LowercaseSearch(s: string, t: string)
    requires IsLowercase(s) && IsLowercase(t)
    ensures ContainsCI(s, t) == Contains(s, t)
  {
    LowerOfLowercase(s);
    LowerOfLowercase(t);
  }

  /** A substring of a substring is a substring. */
  lemma ContainsTransitive(s: string, u: string, t: string)
    requires Contains(s, u) && Contains(u, t)
    ensures Contains(s, t)
  {
    var i :| 0 <= i <= |s| - |u| && OccursAt(s, u, i);
    var j :| 0 <= j <= |u| - |t| && OccursAt(u, t, j);
    forall k | 0 <= k < |t|
      ensures s[i + j + k] == t[k]
    {
      assert u[j + k] == s[i..i + |u|][j + k];
    }
    assert s[i + j..i + j + |t|] == t;
    assert OccursAt(s, t, i + j);
  }

  /** A needle holding a character the haystack lacks does not occur in it. */
  lemma AbsentCharNotContained(s: string, t: string, c: char)
    requires c in t && c !in s
    ensures !Contains(s, t)
  {
  }

  /** PHP truthiness of a string: `""` and `"0"` are the falsy strings (what `empty()` tests). */
  predicate Falsy(s: string) {
    s == "" || s == "0"
  }

  /** `array_filter(parts)` without a callback: the truthy parts, in order. */
  function Kept(parts: seq<string>): (r: seq<string>)
    ensures |r| <= |parts|
    ensures forall x :: x in r ==> x in parts && !Falsy(x)
    ensures forall x :: x in parts && !Falsy(x) ==> x in r
    ensures r == [] <==> forall x :: x in parts ==> Falsy(x)
  {
    if parts == [] then []
    else (if Falsy(parts[0]) then [] else [parts[0]]) + Kept(parts[1..])
  }

  lemma KeptCons(x: string, rest: seq<string>)
    ensures Kept([x] + rest) == (if Falsy(x) then [] else [x]) + Kept(rest)
  {
    assert ([x] + rest)[1..] == rest;
  }

  /** A single part is kept exactly when it is truthy. */
  lemma KeptSingle(x: string)
    ensures Kept([x]) == if Falsy(x) then [] else [x]
  {
    KeptCons(x, []);
    assert [x] + [] == [x];
  }

  lemma KeptOfNonEmpty(parts: seq<string>)
    requires parts != []
    ensures Kept(parts) == (if Falsy(parts[0]) then [] else [parts[0]]) + Kept(parts[1..])
  {
  }

  lemma AppendFacts(a: seq<string>, b: seq<string>)
    requires a != []
    ensures a + b != [] && (a + b)[0] == a[0] && (a + b)[1..] == a[1..] + b
  {
  }

  lemma AppendAssoc(x: seq<string>, y: seq<string>, z: seq<string>)
    ensures x + (y + z) == (x + y) + z
  {
  }

  /** Filtering distributes over concatenation, so the kept parts keep their order
      and their repetitions; with `KeptSingle` this determines `Kept` on every list. */
  lemma {:induction false} KeptAppend(a: seq<string>, b: seq<string>)
    ensures Kept(a + b) == Kept(a) + Kept(b)
  {
    if a != [] {
      KeptOfNonEmpty(a);
      KeptOfNonEmpty(a + b);
      AppendFacts(a, b);
      KeptAppend(a[1..], b);
      AppendAssoc(if Falsy(a[0]) then [] else [a[0]], Kept(a[1..]), Kept(b));
    } else {
      assert a + b == b;
    }
  }

  /** `implode(sep, parts)`: nothing for no parts, the part itself for one, and
      otherwise a string that starts with the first part. */
  function Join(sep: string, parts: seq<string>): (r: string)
    ensures parts == [] ==> r == ""
    ensures |parts| == 1 ==> r == parts[0]
    ensures parts != [] ==> parts[0] <= r
  {
    if |parts| == 0 then ""
    else if |parts| == 1 then parts[0]
    else parts[0] + sep + Join(sep, parts[1..])
  }

  /** Every part occurs in the imploded string. */
  lemma {:induction false} JoinContainsParts(sep: string, parts: seq<string>)
    ensures forall p :: p in parts ==> Contains(Join(sep, parts), p)
  {
    if |parts| > 1 {
      var rest := Join(sep, parts[1..]);
      JoinContainsParts(sep, parts[1..]);
      forall p | p in parts
        ensures Contains(parts[0] + sep + rest, p)
      {
        if p != parts[0] {
          assert p in parts[1..];
          ContainsInSuffix(parts[0] + sep, rest, p);
        }
      }
    }
  }

  /** A substring of the tail of a string is a substring of the whole. */
  lemma ContainsInSuffix(u: string, v: string, t: string)
    requires Contains(v, t)
    ensures Contains(u + v, t)
  {
    var i :| 0 <= i <= |v| - |t| && OccursAt(v, t, i);
    assert (u + v)[|u| + i..|u| + i + |t|] == v[i..i + |t|];
    assert OccursAt(u + v, t, |u| + i);
  }

  lemma JoinCons(sep: string, a: string, t: seq<string>)
    ensures Join(sep, [a] + t) == a + (if t == [] then "" else sep + Join(sep, t))
  {
    assert ([a] + t)[1..] == t;
  }

  /** Joining truthy parts yields a falsy string exactly when there are no parts. */
  lemma {:induction false} JoinOfTruthyParts(sep: string, parts: seq<string>)
    requires forall x :: x in parts ==> !Falsy(x)
    ensures Falsy(Join(sep, parts)) <==> parts == []
  {
    if parts != [] {
      assert parts[0] in parts;
      if |parts| > 1 {
        assert |Join(sep, parts)| >= |parts[0]| + |Join(sep, parts[1..])|;
        assert parts[1] in parts;
        assert parts[1..][0] == parts[1];
        JoinOfTruthyParts(sep, parts[1..]);
      }
    }
  }

  /** `explode(sep, s)` for a one-character separator: the pieces between
      separators, at least one (an empty string explodes to `[""]`). */
  function Split(s: string, sep: char): (parts: seq<string>)
    ensures |parts| >= 1
    ensures forall p :: p in parts ==> sep !in p
  {
    if s == [] then [""]
    else
      var rest := Split(s[1..], sep);
      if s[0] == sep then [""] + rest else [[s[0]] + rest[0]] + rest[1..]
  }

  /** explode and implode with the same separator are inverse. */
  lemma {:induction false} JoinSplit(s: string, sep: char)
    ensures Join([sep], Split(s, sep)) == s
  {
    if s != [] {
      var rest := Split(s[1..], sep);
      JoinSplit(s[1..], sep);
      if s[0] == sep {
        JoinCons([sep], "", rest);
      } else {
        JoinCons([sep], [s[0]] + rest[0], rest[1..]);
        JoinCons([sep], rest[0], rest[1..]);
        assert [rest[0]] + rest[1..] == rest;
      }
    }
  }

  predicate IsSlash(c: char) {
    c == '/' || c == '\\'
  }

  /** WordPress `untrailingslashit`: `rtrim(s, '/\\')`. */
  function Untrailing(s: string): (r: string)
    ensures r <= s
    ensures |r| > 0 ==> !IsSlash(r[|r| - 1])
    ensures forall k :: |r| <= k < |s| ==> IsSlash(s[k])
  {
    if |s| > 0 && IsSlash(s[|s| - 1]) then Untrailing(s[..|s| - 1]) else s
  }

  /** WordPress `trailingslashit`: the string with its trailing slashes replaced by exactly one `/`. */
  function TrailingSlashIt(s: string): (r: string)
    ensures |r| > 0 && r[|r| - 1] == '/'
    ensures |r| > 1 ==> !IsSlash(r[|r| - 2])
    ensures r[..|r| - 1] == Untrailing(s)
    ensures |s| > 0 && !IsSlash(s[|s| - 1]) ==> r == s + "/"
  {
    Untrailing(s) + "/"
  }
}
