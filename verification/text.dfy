/** String helpers with the semantics of the Kotlin standard-library calls the
    chat engine makes: `Char.isWhitespace`, `String.trim`, `String.take` and
    `String.split(delimiter, limit)`. Strings are sequences of Unicode scalar
    values. */
module Text {

  datatype Option<+T> = None | Some(value: T)

  /** Kotlin's `Char.isWhitespace` on the JVM: Java's `Character.isWhitespace`
      or `Character.isSpaceChar`. That is the ASCII controls TAB..CR and
      FS..US, and every character of the Unicode classes Zs, Zl and Zp. */
  predicate IsWhitespace(c: char) {
    || ('\t' <= c <= '\r')
    || ('\U{1C}' <= c <= ' ')
    || c == '\U{A0}'
    || c == '\U{1680}'
    || ('\U{2000}' <= c <= '\U{200A}')
    || c == '\U{2028}'
    || c == '\U{2029}'
    || c == '\U{202F}'
    || c == '\U{205F}'
    || c == '\U{3000}'
  }

  predicate AllWhitespace(s: string) {
    forall i :: 0 <= i < |s| ==> IsWhitespace(s[i])
  }

  /** Number of whitespace characters at the front of `s`. */
  function LeadingWhitespace(s: string): (n: nat)
    ensures n <= |s|
    ensures AllWhitespace(s[..n])
    ensures n < |s| ==> !IsWhitespace(s[n])
  {
    if |s| == 0 || !IsWhitespace(s[0]) then 0
    else
      var n := 1 + LeadingWhitespace(s[1..]);
      assert forall i :: 1 <= i < n ==> s[..n][i] == s[1..][..n - 1][i - 1];
      n
  }

  /** Index where the run of whitespace at the back of `s` begins. */
  function TrailingStart(s: string): (n: nat)
    ensures n <= |s|
    ensures AllWhitespace(s[n..])
    ensures 0 < n ==> !IsWhitespace(s[n - 1])
  {
    if |s| == 0 || !IsWhitespace(s[|s| - 1]) then |s|
    else
      TrailingStart(s[..|s| - 1])
  }

  /** `r` sits at offset `a` of `s` with only whitespace around it. */
  predicate TrimmedAt(s: string, r: string, a: nat) {
    && a + |r| <= |s|
    && s[a..a + |r|] == r
    && AllWhitespace(s[..a])
    && AllWhitespace(s[a + |r|..])
  }

  /** Kotlin `String.trim()`: drops leading and trailing whitespace. */
  function Trim(s: string): (r: string)
    ensures |r| <= |s|
    ensures r == [] <==> AllWhitespace(s)
    ensures r != [] ==> !IsWhitespace(r[0]) && !IsWhitespace(r[|r| - 1])
    ensures exists a :: TrimmedAt(s, r, a)
  {
    var a := LeadingWhitespace(s);
    var rest := s[a..];
    var b := TrailingStart(rest);
    var r := rest[..b];
    assert s[a..a + |r|] == r;
    assert s[a + |r|..] == rest[b..];
    assert TrimmedAt(s, r, a);
    assert r == [] <==> AllWhitespace(s) by {
      if a < |s| {
        assert rest[0] == s[a];
        assert !AllWhitespace(s);
      } else {
        assert s[..a] == s;
      }
    }
    r
  }

  /** A string that neither starts nor ends with whitespace is its own trim. */
  lemma TrimKeeps(t: string)
    requires t == [] || (!IsWhitespace(t[0]) && !IsWhitespace(t[|t| - 1]))
    ensures Trim(t) == t
  {
    if t != [] {
      assert LeadingWhitespace(t) == 0;
      assert t[0..] == t;
      assert TrailingStart(t) == |t|;
      assert t[..|t|] == t;
    }
  }

  /** Trimming is idempotent: a trimmed string has nothing left to trim. */
  lemma TrimIdempotent(s: string)
    ensures Trim(Trim(s)) == Trim(s)
  {
    TrimKeeps(Trim(s));
  }

  function Min(a: int, b: int): int {
    if a <= b then a else b
  }

  /** Kotlin `String.take(n)`: the first `n` characters, or all of them. */
  function Take(s: string, n: nat): (r: string)
    ensures |r| == Min(n, |s|)
    ensures r <= s
  {
    if n <= |s| then s[..n] else s
  }

  /** Index of the first `c` in `s`, or `|s|` when there is none. */
  function IndexOf(s: string, c: char): (i: nat)
    ensures i <= |s|
    ensures i < |s| ==> s[i] == c
    ensures i == |s| <==> c !in s
    ensures forall j :: 0 <= j < i ==> s[j] != c
  {
    if |s| == 0 || s[0] == c then 0 else 1 + IndexOf(s[1..], c)
  }

  /** Number of occurrences of `c` in `s`. */
  function Count(s: string, c: char): nat {
    if |s| == 0 then 0 else (if s[0] == c then 1 else 0) + Count(s[1..], c)
  }

  lemma {:induction false} CountAppend(a: string, b: string, c: char)
    ensures Count(a + b, c) == Count(a, c) + Count(b, c)
  {
    if |a| == 0 {
      assert a + b == b;
    } else {
      assert (a + b)[1..] == a[1..] + b;
      CountAppend(a[1..], b, c);
    }
  }

  lemma {:induction false} CountAbsent(s: string, c: char)
    requires c !in s
    ensures Count(s, c) == 0
  {
    if |s| > 0 {
      assert s[0] == s[0];
      CountAbsent(s[1..], c);
    }
  }

  /** Cutting at the first `c` removes exactly one occurrence. */
  lemma CountAtFirst(s: string, i: nat, c: char)
    requires i < |s| && s[i] == c
    requires forall j :: 0 <= j < i ==> s[j] != c
    ensures Count(s, c) == Count(s[i + 1..], c) + 1
  {
    assert s == s[..i] + ([c] + s[i + 1..]);
    CountAppend(s[..i], [c] + s[i + 1..], c);
    CountAppend([c], s[i + 1..], c);
    CountAbsent(s[..i], c);
    assert Count([c], c) == 1;
  }

  /** Joins `parts` with `d` between consecutive parts. */
  function Join(parts: seq<string>, d: char): string {
    if |parts| == 0 then ""
    else if |parts| == 1 then parts[0]
    else parts[0] + [d] + Join(parts[1..], d)
  }

  /** Joining a part in front of at least one other part. */
  lemma JoinCons(a: string, rest: seq<string>, d: char)
    requires |rest| >= 1
    ensures Join([a] + rest, d) == a + [d] + Join(rest, d)
  {
    assert ([a] + rest)[1..] == rest;
  }

  /** The split properties carry over from the parts after the first cut to
      the whole list, when the first part is everything before the first
      delimiter. */
  lemma ConsParts(s: string, i: nat, d: char, rest: seq<string>)
    requires i < |s| && s[i] == d
    requires forall j :: 0 <= j < i ==> s[j] != d
    requires |rest| >= 1
    requires Join(rest, d) == s[i + 1..]
    requires forall k :: 0 <= k < |rest| - 1 ==> d !in rest[k]
    ensures Join([s[..i]] + rest, d) == s
    ensures forall k :: 0 <= k < |rest| ==> d !in ([s[..i]] + rest)[k]
    ensures ([s[..i]] + rest)[|rest|] == rest[|rest| - 1]
  {
    var head := s[..i];
    var parts := [head] + rest;
    assert d !in head by {
      assert forall j :: 0 <= j < i ==> head[j] == s[j];
    }
    JoinCons(head, rest, d);
    assert s == head + [d] + s[i + 1..];
    forall k | 0 <= k < |rest| ensures d !in parts[k] {
      if k > 0 { assert parts[k] == rest[k - 1]; }
    }
  }

  /** Kotlin `split(d, limit = limit)` for a one-character delimiter: cuts at
      the first `limit - 1` occurrences of `d` and leaves the rest, delimiters
      included, in the last part; `limit == 0` cuts at every occurrence. */
  function Split(s: string, d: char, limit: nat): (parts: seq<string>)
    ensures |parts| >= 1
    ensures limit > 0 ==> |parts| <= limit
    ensures Join(parts, d) == s
    ensures forall k :: 0 <= k < |parts| - 1 ==> d !in parts[k]
    decreases |s|
  {
    var i := IndexOf(s, d);
    if i == |s| || limit == 1 then [s]
    else
      var rest := Split(s[i + 1..], d, if limit == 0 then 0 else limit - 1);
      ConsParts(s, i, d, rest);
      [s[..i]] + rest
  }

  /** Splitting a string whose first `d` sits right after the `d`-free `a`. */
  lemma SplitAfterFirst(a: string, rest: string, d: char, limit: nat)
    requires d !in a
    requires limit != 1
    ensures Split(a + [d] + rest, d, limit) == [a] + Split(rest, d, if limit == 0 then 0 else limit - 1)
  {
    var s := a + [d] + rest;
    assert s[|a|] == d;
    assert forall j :: 0 <= j < |a| ==> s[j] == a[j];
    assert IndexOf(s, d) == |a|;
    assert s[..|a|] == a;
    assert s[|a| + 1..] == rest;
  }

  /** The number of parts `Split` produces: one more than the number of
      delimiters, capped at `limit`. */
  lemma {:induction false} SplitLength(s: string, d: char, limit: nat)
    ensures |Split(s, d, limit)| == if limit == 0 || Count(s, d) + 1 < limit then Count(s, d) + 1 else limit
    decreases |s|
  {
    var i := IndexOf(s, d);
    if i == |s| {
      CountAbsent(s, d);
    } else {
      CountAtFirst(s, i, d);
      if limit != 1 {
        var next: nat := if limit == 0 then 0 else limit - 1;
        SplitLength(s[i + 1..], d, next);
        assert |Split(s, d, limit)| == 1 + |Split(s[i + 1..], d, next)|;
      }
    }
  }

  /** `SplitAfterFirst` for a positive remaining limit. */
  lemma SplitAfterFirstLimited(a: string, rest: string, d: char, n: nat)
    requires d !in a
    requires n >= 1
    ensures Split(a + [d] + rest, d, n + 1) == [a] + Split(rest, d, n)
  {
    SplitAfterFirst(a, rest, d, n + 1);
  }

  /** Splitting undoes joining when every part but the last is free of the
      delimiter and the limit equals the number of parts. */
  lemma {:induction false} SplitJoin(parts: seq<string>, d: char)
    requires |parts| >= 1
    requires forall k :: 0 <= k < |parts| - 1 ==> d !in parts[k]
    ensures Split(Join(parts, d), d, |parts|) == parts
    decreases |parts|
  {
    if |parts| > 1 {
      var head := parts[0];
      var tail := parts[1..];
      var n := |tail|;
      assert parts == [head] + tail;
      JoinCons(head, tail, d);
      assert d !in head;
      assert forall k :: 0 <= k < n - 1 ==> d !in tail[k] by {
        forall k | 0 <= k < n - 1 ensures d !in tail[k] {
          assert tail[k] == parts[k + 1];
        }
      }
      SplitJoin(tail, d);
      SplitAfterFirstLimited(head, Join(tail, d), d, n);
    }
  }
}
