/** The few functions of Go's `strings` and `unicode` packages that the chatbot
    uses, on strings modelled as sequences of code points. */
module GoStrings {

  /** `unicode.IsSpace`: the Latin-1 spaces plus the other Unicode White_Space characters. */
  predicate IsSpace(c: char) {
    || c == '\t' || c == '\n' || c == '\U{0B}' || c == '\U{0C}' || c == '\r' || c == ' '
    || c == '\U{85}' || c == '\U{A0}' || c == '\U{1680}'
    || ('\U{2000}' <= c <= '\U{200A}')
    || c == '\U{2028}' || c == '\U{2029}' || c == '\U{202F}' || c == '\U{205F}' || c == '\U{3000}'
  }

  ghost predicate AllSpace(s: string) {
    forall k :: 0 <= k < |s| ==> IsSpace(s[k])
  }

  /** Neither the first nor the last character is white space. */
  ghost predicate NoSurroundingSpace(s: string) {
    s == [] || (!IsSpace(s[0]) && !IsSpace(s[|s| - 1]))
  }

  /** `strings.IndexByte`: the first position of `c` in `s`, or -1 when `c` does not occur. */
  function IndexByte(s: string, c: char): (i: int)
    ensures -1 <= i < |s|
    ensures i == -1 <==> c !in s
    ensures 0 <= i ==> s[i] == c && c !in s[..i]
  {
    if |s| == 0 then -1
    else if s[0] == c then 0
    else
      var j := IndexByte(s[1..], c);
      if j == -1 then -1
      else
        assert s[..j + 1] == [s[0]] + s[1..][..j];
        j + 1
  }

  /** `strings.Split(s, string(sep))`: the pieces between the occurrences of `sep`,
      empty pieces included; there is always at least one piece. */
  function Split(s: string, sep: char): (lines: seq<string>)
    ensures |lines| >= 1
    ensures (|lines| == 1) == (sep !in s)
    ensures forall k :: 0 <= k < |lines| ==> sep !in lines[k]
    decreases |s|
  {
    var i := IndexByte(s, sep);
    if i == -1 then [s]
    else [s[..i]] + Split(s[i + 1..], sep)
  }

  /** `strings.Join`: the elements with `sep` between consecutive ones. */
  function Join(elems: seq<string>, sep: string): (r: string)
    ensures r == [] <==> (forall k :: 0 <= k < |elems| ==> elems[k] == []) && (|elems| <= 1 || sep == [])
    ensures |elems| > 0 ==> elems[0] <= r
  {
    if |elems| == 0 then []
    else if |elems| == 1 then elems[0]
    else elems[0] + sep + Join(elems[1..], sep)
  }

  /** `strings.TrimPrefix`: `s` without the leading `prefix`, or `s` itself when it does not start with it. */
  function TrimPrefix(s: string, prefix: string): (r: string)
    ensures prefix <= s ==> prefix + r == s
    ensures !(prefix <= s) ==> r == s
  {
    if prefix <= s then s[|prefix|..] else s
  }

  /** The number of white-space characters at the start of `s`. */
  function LeadingSpaces(s: string): (n: nat)
    ensures n <= |s|
    ensures forall k :: 0 <= k < n ==> IsSpace(s[k])
    ensures n < |s| ==> !IsSpace(s[n])
  {
    if |s| > 0 && IsSpace(s[0]) then LeadingSpaces(s[1..]) + 1 else 0
  }

  /** The number of white-space characters at the end of `s`. */
  function TrailingSpaces(s: string): (n: nat)
    ensures n <= |s|
    ensures forall k :: |s| - n <= k < |s| ==> IsSpace(s[k])
    ensures n < |s| ==> !IsSpace(s[|s| - 1 - n])
  {
    if |s| > 0 && IsSpace(s[|s| - 1]) then TrailingSpaces(s[..|s| - 1]) + 1 else 0
  }

  /** `s` without its trailing white space: a prefix of `s` followed only by white space. */
  function TrimRight(s: string): (r: string)
    ensures |r| <= |s| && r == s[..|r|]
    ensures AllSpace(s[|r|..])
    ensures r != [] ==> !IsSpace(r[|r| - 1])
  {
    s[..|s| - TrailingSpaces(s)]
  }

  /** `strings.TrimSpace`: `s` without its leading and trailing white space;
      `s` is its leading white space, the result, then white space. */
  function TrimSpace(s: string): (r: string)
    ensures NoSurroundingSpace(r)
    ensures LeadingSpaces(s) + |r| <= |s|
    ensures r == s[LeadingSpaces(s)..LeadingSpaces(s) + |r|]
    ensures AllSpace(s[LeadingSpaces(s) + |r|..])
  {
    var a := LeadingSpaces(s);
    var t := s[a..];
    var r := TrimRight(t);
    assert r == s[a..a + |r|];
    assert AllSpace(s[a + |r|..]) by {
      assert t[|r|..] == s[a + |r|..];
    }
    assert r != [] ==> r[0] == s[a];
    r
  }

  /** `strings.ReplaceAll(s, string(c), "")`: `s` with every occurrence of `c` removed. */
  function RemoveAll(s: string, c: char): (r: string)
    ensures c !in r
    ensures |r| <= |s|
    ensures forall x :: x != c ==> multiset(r)[x] == multiset(s)[x]
  {
    if |s| == 0 then []
    else
      assert s == [s[0]] + s[1..];
      if s[0] == c then RemoveAll(s[1..], c)
      else [s[0]] + RemoveAll(s[1..], c)
  }

  // ---------------------------------------------------------------------
  // Split and Join

  /** Splitting at the first separator: the text before it, then the pieces of the rest. */
  lemma SplitCons(a: string, sep: char, b: string)
    requires sep !in a
    ensures Split(a + [sep] + b, sep) == [a] + Split(b, sep)
  {
    var s := a + [sep] + b;
    IndexByteFirst(a, sep, b);
    assert s[..|a|] == a;
    assert s[|a| + 1..] == b;
  }

  lemma {:induction false} IndexByteFirst(a: string, sep: char, b: string)
    requires sep !in a
    ensures IndexByte(a + [sep] + b, sep) == |a|
  {
    if |a| > 0 {
      assert (a + [sep] + b)[1..] == a[1..] + [sep] + b;
      IndexByteFirst(a[1..], sep, b);
    }
  }

  /** Joining the pieces of `s` with the separator gives `s` back. */
  lemma {:induction false} JoinSplit(s: string, sep: char)
    ensures Join(Split(s, sep), [sep]) == s
    decreases |s|
  {
    var i := IndexByte(s, sep);
    if i != -1 {
      var a, rest := s[..i], s[i + 1..];
      assert s == a + [s[i]] + rest;
      SplitCons(a, sep, rest);
      JoinCons(a, Split(rest, sep), [sep]);
      JoinSplit(rest, sep);
    }
  }

  lemma JoinCons(a: string, elems: seq<string>, sep: string)
    requires |elems| >= 1
    ensures Join([a] + elems, sep) == a + sep + Join(elems, sep)
  {
    assert ([a] + elems)[1..] == elems;
  }

  /** Splitting a join of separator-free pieces gives the pieces back. */
  lemma {:induction false} SplitJoin(parts: seq<string>, sep: char)
    requires |parts| >= 1
    requires forall k :: 0 <= k < |parts| ==> sep !in parts[k]
    ensures Split(Join(parts, [sep]), sep) == parts
  {
    if |parts| > 1 {
      var rest := Join(parts[1..], [sep]);
      assert Join(parts, [sep]) == parts[0] + [sep] + rest;
      SplitJoin(parts[1..], sep);
      SplitCons(parts[0], sep, rest);
      assert [parts[0]] + parts[1..] == parts;
    } else {
      assert Join(parts, [sep]) == parts[0];
    }
  }

  // ---------------------------------------------------------------------
  // TrimSpace

  lemma {:induction false} LeadingSpacesAfterSpace(pre: string, t: string)
    requires AllSpace(pre)
    ensures LeadingSpaces(pre + t) == |pre| + LeadingSpaces(t)
  {
    if |pre| > 0 {
      assert (pre + t)[0] == pre[0] && IsSpace(pre[0]);
      assert (pre + t)[1..] == pre[1..] + t;
      LeadingSpacesAfterSpace(pre[1..], t);
    } else {
      assert pre + t == t;
    }
  }

  lemma {:induction false} TrailingSpacesBeforeSpace(t: string, post: string)
    requires AllSpace(post)
    ensures TrailingSpaces(t + post) == |post| + TrailingSpaces(t)
  {
    if |post| > 0 {
      var p := post[..|post| - 1];
      assert (t + post)[|t + post| - 1] == post[|post| - 1] && IsSpace(post[|post| - 1]);
      assert (t + post)[..|t + post| - 1] == t + p;
      TrailingSpacesBeforeSpace(t, p);
    } else {
      assert t + post == t;
    }
  }

  /** TrimSpace removes exactly the surrounding white space: a text without
      surrounding white space is recovered from any padding of it. */
  lemma TrimSpaceUnique(pre: string, x: string, post: string)
    requires AllSpace(pre) && AllSpace(post) && NoSurroundingSpace(x)
    ensures TrimSpace(pre + x + post) == x
  {
    var s := pre + x + post;
    assert s == pre + (x + post);
    LeadingSpacesAfterSpace(pre, x + post);
    if x == [] {
      assert x + post == post + [];
      LeadingSpacesAfterSpace(post, []);
    } else {
      assert LeadingSpaces(x + post) == 0 by {
        assert (x + post)[0] == x[0];
      }
      assert s[|pre|..] == x + post;
      TrimRightUnique(x, post);
    }
  }

  lemma TrimRightUnique(x: string, post: string)
    requires AllSpace(post) && (x == [] || !IsSpace(x[|x| - 1]))
    ensures TrimRight(x + post) == x
  {
    TrailingSpacesBeforeSpace(x, post);
    assert TrailingSpaces(x) == 0;
    assert (x + post)[..|x|] == x;
  }

  /** A text without surrounding white space is left unchanged by TrimSpace. */
  lemma TrimSpaceFixed(x: string)
    requires NoSurroundingSpace(x)
    ensures TrimSpace(x) == x
  {
    assert [] + x + [] == x;
    TrimSpaceUnique([], x, []);
  }

  /** TrimSpace is idempotent. */
  lemma TrimSpaceIdempotent(s: string)
    ensures TrimSpace(TrimSpace(s)) == TrimSpace(s)
  {
    TrimSpaceFixed(TrimSpace(s));
  }

  // ---------------------------------------------------------------------
  // TrimPrefix and RemoveAll

  /** TrimPrefix undoes prepending the prefix. */
  lemma TrimPrefixAfterPrefix(prefix: string, x: string)
    ensures TrimPrefix(prefix + x, prefix) == x
  {
    assert prefix <= prefix + x;
  }

  lemma {:induction false} RemoveAllAppend(a: string, b: string, c: char)
    ensures RemoveAll(a + b, c) == RemoveAll(a, c) + RemoveAll(b, c)
  {
    if |a| > 0 {
      assert (a + b)[1..] == a[1..] + b;
      RemoveAllAppend(a[1..], b, c);
    } else {
      assert a + b == b;
    }
  }

  lemma {:induction false} RemoveAllAbsent(s: string, c: char)
    requires c !in s
    ensures RemoveAll(s, c) == s
  {
    if |s| > 0 {
      RemoveAllAbsent(s[1..], c);
    }
  }
}
