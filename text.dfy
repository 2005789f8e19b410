/** Option and Result, the model's stand-ins for JavaScript's `undefined`/`null` and thrown errors. */
module Wrappers {
  datatype Option<T> = None | Some(value: T)

  datatype Result<T> = Ok(value: T) | Err(error: string)
}

/**
 * The string operations the JavaScript sources lean on: white space as `\s` and
 * `String.prototype.trim` see it, ASCII case folding, `includes`, `indexOf`,
 * `trim`, `split(/\s+/)`, `join` and global literal `replace`.
 */
module Text {
  import opened Wrappers

  /** JavaScript white space and line terminators: the set matched by `\s` and stripped by `trim`. */
  predicate IsSpace(c: char) {
    c == '\t' || c == '\n' || c == '\U{000B}' || c == '\U{000C}' || c == '\r' || c == ' '
    || c == '\U{00A0}' || c == '\U{1680}' || ('\U{2000}' <= c <= '\U{200A}')
    || c == '\U{2028}' || c == '\U{2029}' || c == '\U{202F}' || c == '\U{205F}'
    || c == '\U{3000}' || c == '\U{FEFF}'
  }

  predicate IsAsciiLetter(c: char) { ('a' <= c <= 'z') || ('A' <= c <= 'Z') }

  predicate IsDigit(c: char) { '0' <= c <= '9' }

  /** The class `\w` of a non-Unicode JavaScript regular expression. */
  predicate IsWordChar(c: char) { IsAsciiLetter(c) || IsDigit(c) || c == '_' }

  function LowerChar(c: char): (r: char)
    ensures 'A' <= c <= 'Z' ==> r == (c as int + 32) as char
    ensures !('A' <= c <= 'Z') ==> r == c
  {
    if 'A' <= c <= 'Z' then (c as int + 32) as char else c
  }

  /** `toLowerCase`, restricted to the ASCII letters. */
  function ToLower(s: string): (r: string)
    ensures |r| == |s|
    ensures forall i :: 0 <= i < |s| ==> r[i] == LowerChar(s[i])
  {
    if s == [] then [] else [LowerChar(s[0])] + ToLower(s[1..])
  }

  function UpperChar(c: char): (r: char)
    ensures 'a' <= c <= 'z' ==> r == (c as int - 32) as char
    ensures !('a' <= c <= 'z') ==> r == c
  {
    if 'a' <= c <= 'z' then (c as int - 32) as char else c
  }

  /** `toUpperCase`, restricted to the ASCII letters: no lower-case ASCII letter survives. */
  function ToUpper(s: string): (r: string)
    ensures |r| == |s|
    ensures forall i :: 0 <= i < |s| ==> r[i] == UpperChar(s[i])
    ensures forall c :: 'a' <= c <= 'z' ==> c !in r
  {
    if s == [] then [] else [UpperChar(s[0])] + ToUpper(s[1..])
  }

  lemma ToLowerAppend(a: string, b: string)
    ensures ToLower(a + b) == ToLower(a) + ToLower(b)
  {
    assert forall i :: 0 <= i < |a + b| ==> ToLower(a + b)[i] == (ToLower(a) + ToLower(b))[i];
  }

  /** `sub` occurs in `s` at index `i`. */
  predicate StartsAt(s: string, i: int, sub: string) {
    0 <= i && i + |sub| <= |s| && s[i..i + |sub|] == sub
  }

  /** `s.includes(sub)`. */
  predicate Contains(s: string, sub: string) {
    exists i :: 0 <= i <= |s| && StartsAt(s, i, sub)
  }

  /** `arr.some(sub => s.includes(sub))`. */
  predicate ContainsAny(s: string, subs: seq<string>) {
    exists k :: 0 <= k < |subs| && Contains(s, subs[k])
  }

  /** The first occurrence of `sub` in `s` at or after `from` (`s.indexOf(sub, from)`). */
  function IndexFrom(s: string, sub: string, from: nat): (r: Option<nat>)
    ensures r.Some? ==> from <= r.value && StartsAt(s, r.value, sub)
    ensures r.Some? ==> forall j :: from <= j < r.value ==> !StartsAt(s, j, sub)
    ensures r.None? ==> forall j :: from <= j ==> !StartsAt(s, j, sub)
    decreases |s| - from
  {
    if from + |sub| > |s| then None
    else if StartsAt(s, from, sub) then Some(from)
    else IndexFrom(s, sub, from + 1)
  }

  lemma IndexFromContains(s: string, sub: string)
    ensures IndexFrom(s, sub, 0).Some? <==> Contains(s, sub)
  {
    if Contains(s, sub) {
      var i :| 0 <= i <= |s| && StartsAt(s, i, sub);
    }
  }

  lemma ContainsSlice(s: string, i: nat, j: nat, sub: string)
    requires i <= j <= |s|
    requires Contains(s[i..j], sub)
    ensures Contains(s, sub)
  {
    var w := s[i..j];
    var k :| 0 <= k <= |w| && StartsAt(w, k, sub);
    forall t | 0 <= t < |sub|
      ensures s[i + k + t] == sub[t]
    {
      assert w[k..k + |sub|][t] == sub[t];
      assert w[k + t] == s[i + k + t];
    }
    assert s[i + k..i + k + |sub|] == sub;
    assert StartsAt(s, i + k, sub);
  }

  /** A text lacking one of the characters of `sub` does not contain it. */
  lemma LacksChar(s: string, sub: string, c: char)
    requires c in sub && c !in s
    ensures !Contains(s, sub)
  {
    var k :| 0 <= k < |sub| && sub[k] == c;
    forall i | 0 <= i <= |s|
      ensures !StartsAt(s, i, sub)
    {
      if i + |sub| <= |s| {
        assert s[i..i + |sub|][k] == s[i + k] != c;
      }
    }
  }

  lemma ContainsBackslash(s: string, sub: string)
    requires '\\' in sub && Contains(s, sub)
    ensures '\\' in s
  {
    var i :| 0 <= i <= |s| && StartsAt(s, i, sub);
    var k :| 0 <= k < |sub| && sub[k] == '\\';
    assert s[i + k] == sub[k];
  }

  /** The maximal run of white space starting at `i`. */
  function SpaceRun(s: string, i: nat): (k: nat)
    ensures i + k <= |s| || (i > |s| && k == 0)
    ensures forall j :: i <= j < i + k ==> IsSpace(s[j])
    ensures i + k < |s| ==> !IsSpace(s[i + k])
    decreases |s| - i
  {
    if i < |s| && IsSpace(s[i]) then 1 + SpaceRun(s, i + 1) else 0
  }

  /** The maximal run of characters that are not white space, starting at `i`. */
  function WordRun(s: string, i: nat): (k: nat)
    requires i <= |s|
    ensures i + k <= |s|
    ensures forall j :: i <= j < i + k ==> !IsSpace(s[j])
    ensures i + k < |s| ==> IsSpace(s[i + k])
    decreases |s| - i
  {
    if i < |s| && !IsSpace(s[i]) then 1 + WordRun(s, i + 1) else 0
  }

  /** `r` is `s` with `a` white-space characters cut from the front and only white space cut from the back. */
  predicate TrimmedAt(s: string, a: int, r: string) {
    0 <= a <= |s| - |r| && r == s[a..a + |r|]
    && (forall j :: 0 <= j < a ==> IsSpace(s[j]))
    && (forall j :: a + |r| <= j < |s| ==> IsSpace(s[j]))
  }

  /** `s.trim()`: leading and trailing white space removed. */
  function Trim(s: string): string
    decreases |s|
  {
    if s != [] && IsSpace(s[0]) then Trim(s[1..])
    else if s != [] && IsSpace(s[|s| - 1]) then Trim(s[..|s| - 1])
    else s
  }

  /** `Trim` keeps the part of `s` between its leading and trailing white space, which neither starts nor ends with white space. */
  lemma TrimSpec(s: string)
    ensures exists a :: TrimmedAt(s, a, Trim(s))
    ensures Trim(s) != [] ==> !IsSpace(Trim(s)[0]) && !IsSpace(Trim(s)[|Trim(s)| - 1])
  {
    var a := TrimOffset(s);
    TrimEnds(s);
  }

  /** Trimming removes white space only: the result sits in `s` at some offset with only white space around it. */
  lemma {:induction false} TrimOffset(s: string) returns (a: nat)
    ensures TrimmedAt(s, a, Trim(s))
    decreases |s|
  {
    var r := Trim(s);
    if s != [] && IsSpace(s[0]) {
      var b := TrimOffset(s[1..]);
      a := b + 1;
      assert r == s[1..][b..b + |r|] == s[a..a + |r|];
      forall j | 0 <= j < a
        ensures IsSpace(s[j])
      {
        if j > 0 {
          assert s[j] == s[1..][j - 1];
        }
      }
      forall j | a + |r| <= j < |s|
        ensures IsSpace(s[j])
      {
        assert s[j] == s[1..][j - 1];
      }
    } else if s != [] && IsSpace(s[|s| - 1]) {
      var n := |s| - 1;
      a := TrimOffset(s[..n]);
      assert r == s[..n][a..a + |r|] == s[a..a + |r|];
      assert s[..n][0] == s[0];
      forall j | a + |r| <= j < |s|
        ensures IsSpace(s[j])
      {
        if j < n {
          assert s[j] == s[..n][j];
        }
      }
    } else {
      a := 0;
      assert r == s[0..|s|];
    }
  }

  /** The trimmed text neither starts nor ends with white space. */
  lemma {:induction false} TrimEnds(s: string)
    ensures Trim(s) != [] ==> !IsSpace(Trim(s)[0]) && !IsSpace(Trim(s)[|Trim(s)| - 1])
    decreases |s|
  {
    if s != [] && IsSpace(s[0]) {
      TrimEnds(s[1..]);
    } else if s != [] && IsSpace(s[|s| - 1]) {
      TrimEnds(s[..|s| - 1]);
    }
  }


  /** `s.split(/\s+/)`: the pieces between maximal white-space runs (empty at either end when `s` starts or ends with white space). */
  function SplitSpace(s: string): (r: seq<string>)
    ensures |r| >= 1
    ensures forall k :: 0 <= k < |r| ==> forall j :: 0 <= j < |r[k]| ==> !IsSpace(r[k][j])
    decreases |s|
  {
    var k := WordRun(s, 0);
    if k == |s| then [s]
    else
      var next := k + SpaceRun(s, k);
      [s[..k]] + SplitSpace(s[next..])
  }

  /** `parts.join(sep)`. */
  function Join(parts: seq<string>, sep: string): string {
    if parts == [] then ""
    else if |parts| == 1 then parts[0]
    else parts[0] + sep + Join(parts[1..], sep)
  }

  /** Every character of `s` that is not in `drop` (`s.replace(/[...]/g, '')`). */
  function RemoveChars(s: string, drop: set<char>): (r: string)
    ensures forall c :: c in r ==> c in s && c !in drop
    ensures |r| <= |s|
  {
    if s == [] then []
    else (if s[0] in drop then [] else [s[0]]) + RemoveChars(s[1..], drop)
  }

  /** `sub` occurs at `i` when both are compared with ASCII case folding (a regular expression with the `i` flag). */
  predicate StartsAtFolded(s: string, i: nat, sub: string) {
    i + |sub| <= |s| && ToLower(s[i..i + |sub|]) == ToLower(sub)
  }

  /**
   * `s.replace(/sub/gi, '')` for a literal `sub`: occurrences are removed left to right, and
   * scanning resumes after each removed one.
   */
  function RemoveFolded(s: string, sub: string): (r: string)
    requires sub != []
    ensures |r| <= |s|
    decreases |s|
  {
    if s == [] then []
    else if StartsAtFolded(s, 0, sub) then RemoveFolded(s[|sub|..], sub)
    else [s[0]] + RemoveFolded(s[1..], sub)
  }

  lemma RemoveFoldedKeeps(s: string, sub: string, drop: set<char>)
    requires sub != []
    requires forall c :: c in s ==> c !in drop
    ensures forall c :: c in RemoveFolded(s, sub) ==> c !in drop
    decreases |s|
  {
    if s == [] {
    } else if StartsAtFolded(s, 0, sub) {
      RemoveFoldedKeeps(s[|sub|..], sub, drop);
    } else {
      RemoveFoldedKeeps(s[1..], sub, drop);
    }
  }

  /** The decimal spelling of a natural number, as JavaScript prints it. */
  function NatToString(n: nat): (r: string)
    ensures |r| >= 1
    ensures forall c :: c in r ==> IsDigit(c)
  {
    if n < 10 then [DigitChar(n)] else NatToString(n / 10) + [DigitChar(n % 10)]
  }

  /** The decimal spelling of an integer, with a leading `-` when it is negative. */
  function IntToString(i: int): (r: string)
    ensures |r| >= 1
    ensures i >= 0 ==> r == NatToString(i)
    ensures i < 0 ==> r[0] == '-'
  {
    if i < 0 then "-" + NatToString(-i) else NatToString(i)
  }

  function DigitChar(d: nat): (c: char)
    requires d < 10
    ensures IsDigit(c)
  {
    ('0' as int + d) as char
  }
}

/** Sequence helpers: `[...new Set(list)]`, duplicate freedom and a sort by descending key. */
module Lists {
  import opened Wrappers

  /** Concatenation regroups freely. */
  lemma AppendAssoc<T>(a: seq<T>, b: seq<T>, c: seq<T>)
    ensures (a + b) + c == a + (b + c)
  {
  }

  /** The empty sequence is a left unit of concatenation. */
  lemma AppendEmpty<T>(a: seq<T>)
    ensures [] + a == a
  {
  }

  /** Dropping one more element after dropping `j`. */
  lemma DropOne<T>(s: seq<T>, j: nat)
    requires j < |s|
    ensures s[j..][1..] == s[j + 1..]
  {
  }

  /** A sequence is its prefix followed by the rest. */
  lemma SplitAt<T>(s: seq<T>, n: nat)
    requires n <= |s|
    ensures s == s[..n] + s[n..]
  {
  }

  /** The empty sequence is a right unit of concatenation. */
  lemma AppendNil<T>(a: seq<T>)
    ensures a + [] == a
  {
  }

  /** Taking `i` of the first `i + 1` elements is taking `i`. */
  lemma TakeTake<T>(s: seq<T>, i: nat)
    requires i < |s|
    ensures s[..i + 1][..i] == s[..i] && s[..i + 1][i] == s[i]
  {
  }

  /** A prefix of a prefix is a prefix. */
  lemma TakeOfTake<T>(s: seq<T>, n: nat, i: nat)
    requires i <= n <= |s|
    ensures s[..n][..i] == s[..i]
  {
  }

  /** Taking every element gives the sequence back. */
  lemma TakeAll<T>(s: seq<T>)
    ensures s[..|s|] == s
  {
  }

  /** A non-empty sequence is its front and its last element. */
  lemma SnocSplit<T>(s: seq<T>)
    requires s != []
    ensures s == s[..|s| - 1] + [s[|s| - 1]]
  {
  }

  lemma PrefixOfAppend<T>(a: seq<T>, b: seq<T>)
    ensures |a + b| >= |a| && (a + b)[..|a|] == a
  {
  }

  /** Equal parts make an equal whole. */
  lemma ConcatOfEqual<T>(x: seq<T>, a: seq<T>, b: seq<T>, a': seq<T>, b': seq<T>)
    requires x == a + b && a == a' && b == b'
    ensures x == a' + b'
  {
  }

  predicate NoDuplicates<T(==)>(s: seq<T>) {
    forall i, j :: 0 <= i < j < |s| ==> s[i] != s[j]
  }

  /** A list without repeats holds each value at most once. */
  lemma {:induction false} DistinctCounts<T>(s: seq<T>)
    requires NoDuplicates(s)
    ensures forall x :: multiset(s)[x] <= 1
  {
    if s != [] {
      var t := s[1..];
      assert s == [s[0]] + t;
      forall i, j | 0 <= i < j < |t|
        ensures t[i] != t[j]
      {
        assert t[i] == s[i + 1] && t[j] == s[j + 1];
      }
      DistinctCounts(t);
    }
  }

  /** A list holding each value at most once has no repeats. */
  lemma {:induction false} CountsDistinct<T>(s: seq<T>)
    requires forall x :: multiset(s)[x] <= 1
    ensures NoDuplicates(s)
  {
    if s != [] {
      var t := s[1..];
      assert s == [s[0]] + t;
      assert multiset(s) == multiset{s[0]} + multiset(t);
      forall x
        ensures multiset(t)[x] <= 1
      {
        assert multiset(s)[x] == multiset{s[0]}[x] + multiset(t)[x];
      }
      CountsDistinct(t);
      assert multiset(s)[s[0]] == 1 + multiset(t)[s[0]];
      forall i, j | 0 <= i < j < |s|
        ensures s[i] != s[j]
      {
        assert s[j] == t[j - 1];
        if i > 0 {
          assert s[i] == t[i - 1];
        } else {
          assert s[j] in t;
        }
      }
    }
  }

  /** Rearranging a list without repeats leaves none. */
  lemma PermDistinct<T>(a: seq<T>, b: seq<T>)
    requires multiset(a) == multiset(b) && NoDuplicates(a)
    ensures NoDuplicates(b)
  {
    DistinctCounts(a);
    CountsDistinct(b);
  }

  /** The elements of `s` not in `seen`, each once, in order of first occurrence. */
  function DedupFrom<T(==,!new)>(s: seq<T>, seen: set<T>): (r: seq<T>)
    ensures forall x :: x in r <==> x in s && x !in seen
    ensures NoDuplicates(r)
    ensures |r| <= |s|
  {
    if s == [] then []
    else if s[0] in seen then DedupFrom(s[1..], seen)
    else [s[0]] + DedupFrom(s[1..], seen + {s[0]})
  }

  /** `[...new Set(s)]`: the distinct elements of `s` in order of first occurrence. */
  function Dedup<T(==,!new)>(s: seq<T>): (r: seq<T>)
    ensures forall x :: x in r <==> x in s
    ensures NoDuplicates(r)
    ensures |r| <= |s|
  {
    DedupFrom(s, {})
  }

  lemma {:induction false} DedupFromSnoc<T(!new)>(s: seq<T>, x: T, seen: set<T>)
    ensures DedupFrom(s + [x], seen) == DedupFrom(s, seen) + (if x in s || x in seen then [] else [x])
  {
    if s == [] {
      assert [] + [x] == [x];
    } else {
      assert (s + [x])[1..] == s[1..] + [x];
      if s[0] in seen {
        DedupFromSnoc(s[1..], x, seen);
      } else {
        DedupFromSnoc(s[1..], x, seen + {s[0]});
      }
      assert x in s <==> x == s[0] || x in s[1..];
    }
  }

  /** Appending an element adds it to the distinct phrases when it is new. */
  lemma DedupSnoc<T(!new)>(s: seq<T>, x: T)
    ensures Dedup(s + [x]) == Dedup(s) + (if x in s then [] else [x])
  {
    DedupFromSnoc(s, x, {});
  }

  /** Ordered by descending `key`. */
  predicate SortedDesc<T>(xs: seq<T>, key: T -> real) {
    forall i, j :: 0 <= i < j < |xs| ==> key(xs[i]) >= key(xs[j])
  }

  /** `x` placed before the first element whose key does not exceed its own. */
  function InsertDesc<T>(x: T, ys: seq<T>, key: T -> real): seq<T> {
    if ys == [] || key(x) >= key(ys[0]) then [x] + ys
    else [ys[0]] + InsertDesc(x, ys[1..], key)
  }

  /**
   * `xs.sort((a, b) => key(b) - key(a))`, as an insertion sort; like the stable sort of
   * JavaScript engines, it keeps elements with equal keys in their input order.
   */
  function SortDesc<T>(xs: seq<T>, key: T -> real): seq<T> {
    if xs == [] then [] else InsertDesc(xs[0], SortDesc(xs[1..], key), key)
  }

  lemma {:induction false} InsertDescPerm<T>(x: T, ys: seq<T>, key: T -> real)
    ensures multiset(InsertDesc(x, ys, key)) == multiset(ys) + multiset{x}
  {
    if ys != [] && key(x) < key(ys[0]) {
      InsertDescPerm(x, ys[1..], key);
      assert ys == [ys[0]] + ys[1..];
    }
  }

  lemma {:induction false} InsertDescSpec<T>(x: T, ys: seq<T>, key: T -> real)
    requires SortedDesc(ys, key)
    ensures SortedDesc(InsertDesc(x, ys, key), key)
    ensures multiset(InsertDesc(x, ys, key)) == multiset(ys) + multiset{x}
  {
    InsertDescPerm(x, ys, key);
    if ys != [] && key(x) < key(ys[0]) {
      var tail := InsertDesc(x, ys[1..], key);
      InsertDescSpec(x, ys[1..], key);
      forall k | 0 <= k < |tail|
        ensures key(ys[0]) >= key(tail[k])
      {
        assert tail[k] in multiset(ys[1..]) + multiset{x};
        if tail[k] != x {
          var m :| 0 <= m < |ys[1..]| && ys[1..][m] == tail[k];
          assert ys[m + 1] == tail[k];
        }
      }
      SortedCons(ys[0], tail, key);
    }
  }

  /** An element no smaller than everything in a descending list can lead it. */
  lemma SortedCons<T>(h: T, t: seq<T>, key: T -> real)
    requires SortedDesc(t, key)
    requires forall k :: 0 <= k < |t| ==> key(h) >= key(t[k])
    ensures SortedDesc([h] + t, key)
  {
    var r := [h] + t;
    forall i, j | 0 <= i < j < |r|
      ensures key(r[i]) >= key(r[j])
    {
      assert r[j] == t[j - 1];
      if i > 0 {
        assert r[i] == t[i - 1];
      }
    }
  }


  /** The sort orders by descending key and only rearranges. */
  lemma {:induction false} SortDescSpec<T>(xs: seq<T>, key: T -> real)
    ensures SortedDesc(SortDesc(xs, key), key)
    ensures multiset(SortDesc(xs, key)) == multiset(xs)
  {
    if xs != [] {
      SortDescSpec(xs[1..], key);
      InsertDescSpec(xs[0], SortDesc(xs[1..], key), key);
      assert xs == [xs[0]] + xs[1..];
    }
  }

  /** The values of the present entries, in order (`xs.filter(x => x !== null)`). */
  function Somes<T>(xs: seq<Option<T>>): seq<T> {
    if xs == [] then []
    else Somes(xs[..|xs| - 1]) + (if xs[|xs| - 1].Some? then [xs[|xs| - 1].value] else [])
  }

  /** Extending the input by one entry extends the result by that entry's value, if any. */
  lemma SomesPrefix<T>(xs: seq<Option<T>>, i: nat)
    requires i < |xs|
    ensures Somes(xs[..i + 1]) == Somes(xs[..i]) + (if xs[i].Some? then [xs[i].value] else [])
  {
    assert xs[..i + 1][..i] == xs[..i];
  }

  /** Every value comes from a present entry. */
  lemma {:induction false} SomesSound<T>(xs: seq<Option<T>>)
    ensures |Somes(xs)| <= |xs|
    ensures forall i :: 0 <= i < |Somes(xs)| ==> exists j :: 0 <= j < |xs| && xs[j] == Some(Somes(xs)[i])
  {
    if xs != [] {
      var n := |xs| - 1;
      SomesSound(xs[..n]);
      var prev := Somes(xs[..n]);
      forall i | 0 <= i < |prev|
        ensures exists j :: 0 <= j < |xs| && xs[j] == Some(prev[i])
      {
        var j :| 0 <= j < n && xs[..n][j] == Some(prev[i]);
        assert xs[j] == xs[..n][j];
      }
    }
  }

  /** With no present entry there is no value. */
  lemma {:induction false} SomesNone<T>(xs: seq<Option<T>>)
    requires forall i :: 0 <= i < |xs| ==> xs[i].None?
    ensures Somes(xs) == []
  {
    if xs != [] {
      var n := |xs| - 1;
      assert forall i :: 0 <= i < n ==> xs[..n][i] == xs[i];
      SomesNone(xs[..n]);
    }
  }

  /** Every present entry's value is kept. */
  lemma {:induction false} SomesComplete<T>(xs: seq<Option<T>>, j: nat)
    requires j < |xs| && xs[j].Some?
    ensures xs[j].value in Somes(xs)
  {
    var n := |xs| - 1;
    if j < n {
      assert xs[..n][j] == xs[j];
      SomesComplete(xs[..n], j);
    }
  }
}
