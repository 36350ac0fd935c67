/**
 * Small building blocks shared by the screens of the storefront: an Option
 * type for JavaScript's `undefined`/`null`, `Array.prototype.filter`,
 * `String.prototype.includes`, ASCII `toLowerCase`, the stable
 * `Array.prototype.sort` driven by an integer key, and JavaScript's `%`.
 */
module Util {

  datatype Option<T> = None | Some(value: T)

  // ---------------------------------------------------------------------
  // Array.prototype.filter

  /** The elements of `s` that satisfy `p`, in their original order. */
  function Filter<T>(s: seq<T>, p: T -> bool): (r: seq<T>)
    ensures |r| <= |s|
  {
    if s == [] then []
    else if p(s[0]) then [s[0]] + Filter(s[1..], p)
    else Filter(s[1..], p)
  }

  /** `a` can be obtained from `b` by deleting elements (order kept). */
  predicate IsSubseq<T(==)>(a: seq<T>, b: seq<T>)
    decreases |b|
  {
    if a == [] then true
    else if b == [] then false
    else if a[0] == b[0] then IsSubseq(a[1..], b[1..])
    else IsSubseq(a, b[1..])
  }

  lemma {:induction false} FilterIsSubseq<T>(s: seq<T>, p: T -> bool)
    ensures IsSubseq(Filter(s, p), s)
    decreases |s|
  {
    if s != [] {
      FilterIsSubseq(s[1..], p);
      if !p(s[0]) {
        SubseqOfTail(Filter(s[1..], p), s);
      }
    }
  }

  /** Dropping the head of `b` keeps every subsequence of its tail a subsequence of `b`. */
  lemma {:induction false} SubseqOfTail<T>(a: seq<T>, b: seq<T>)
    requires b != [] && IsSubseq(a, b[1..])
    ensures IsSubseq(a, b)
    decreases |b|, 0
  {
    if a != [] && a[0] == b[0] {
      SubseqSkipHead(a, b[1..]);
    }
  }

  /** A subsequence stays one when its own head is dropped. */
  lemma {:induction false} SubseqSkipHead<T>(a: seq<T>, b: seq<T>)
    requires a != [] && IsSubseq(a, b)
    ensures IsSubseq(a[1..], b)
    decreases |b|, 1
  {
    if a[0] == b[0] {
      SubseqOfTail(a[1..], b);
    } else {
      SubseqSkipHead(a, b[1..]);
      SubseqOfTail(a[1..], b);
    }
  }

  /** Being a subsequence is transitive. */
  lemma {:induction false} SubseqTrans<T>(a: seq<T>, b: seq<T>, c: seq<T>)
    requires IsSubseq(a, b) && IsSubseq(b, c)
    ensures IsSubseq(a, c)
    decreases |c|
  {
    if a != [] {
      assert b != [] && c != [];
      if b[0] == c[0] {
        if a[0] == b[0] {
          SubseqTrans(a[1..], b[1..], c[1..]);
        } else {
          SubseqTrans(a, b[1..], c[1..]);
          SubseqOfTail(a, c);
        }
      } else {
        SubseqTrans(a, b, c[1..]);
        SubseqOfTail(a, c);
      }
    }
  }

  /** Membership in a filtered list: exactly the elements of `s` that pass `p`. */
  lemma {:induction false} FilterMembership<T>(s: seq<T>, p: T -> bool, x: T)
    ensures x in Filter(s, p) <==> x in s && p(x)
    decreases |s|
  {
    if s != [] {
      FilterMembership(s[1..], p, x);
      assert s == [s[0]] + s[1..];
    }
  }

  /** Every element of the filtered list passes the predicate. */
  lemma {:induction false} FilterAllPass<T>(s: seq<T>, p: T -> bool)
    ensures forall i :: 0 <= i < |Filter(s, p)| ==> p(Filter(s, p)[i])
    decreases |s|
  {
    if s != [] {
      FilterAllPass(s[1..], p);
    }
  }

  /** A filter whose predicate holds of every element is the identity. */
  lemma {:induction false} FilterKeepsAll<T>(s: seq<T>, p: T -> bool)
    requires forall i :: 0 <= i < |s| ==> p(s[i])
    ensures Filter(s, p) == s
    decreases |s|
  {
    if s != [] {
      FilterKeepsAll(s[1..], p);
      assert s == [s[0]] + s[1..];
    }
  }

  /** Filtering twice is filtering once by the conjunction. */
  lemma {:induction false} FilterFilter<T>(s: seq<T>, p: T -> bool, q: T -> bool)
    ensures Filter(Filter(s, p), q) == Filter(s, x => p(x) && q(x))
    decreases |s|
  {
    if s != [] {
      FilterFilter(s[1..], p, q);
    }
  }

  /** Predicates that agree on every element of `s` filter it alike. */
  lemma {:induction false} FilterAgree<T>(s: seq<T>, p: T -> bool, q: T -> bool)
    requires forall i :: 0 <= i < |s| ==> p(s[i]) == q(s[i])
    ensures Filter(s, p) == Filter(s, q)
    decreases |s|
  {
    if s != [] {
      assert forall i :: 0 <= i < |s[1..]| ==> s[1..][i] == s[i + 1];
      FilterAgree(s[1..], p, q);
    }
  }

  /** Two predicates that never hold together count at most |s| between them. */
  lemma {:induction false} CountDisjoint<T>(s: seq<T>, p: T -> bool, q: T -> bool)
    requires forall x :: !(p(x) && q(x))
    ensures |Filter(s, p)| + |Filter(s, q)| == |Filter(s, x => p(x) || q(x))|
    ensures |Filter(s, p)| + |Filter(s, q)| <= |s|
    decreases |s|
  {
    if s != [] {
      CountDisjoint(s[1..], p, q);
    }
  }

  /** Filtering splits over concatenation. */
  lemma {:induction false} FilterAppend<T>(a: seq<T>, b: seq<T>, p: T -> bool)
    ensures Filter(a + b, p) == Filter(a, p) + Filter(b, p)
    decreases |a|
  {
    if a != [] {
      FilterAppend(a[1..], b, p);
      assert (a + b)[0] == a[0];
      assert (a + b)[1..] == a[1..] + b;
    } else {
      assert a + b == b;
    }
  }

  // ---------------------------------------------------------------------
  // Strings

  /** `String.prototype.startsWith`. */
  predicate StartsWith(s: string, prefix: string)
  {
    |prefix| <= |s| && s[..|prefix|] == prefix
  }

  /** `needle` occurs in `hay` starting at offset `i`. */
  ghost predicate OccursAt(hay: string, needle: string, i: int)
  {
    0 <= i && i + |needle| <= |hay| && hay[i..i + |needle|] == needle
  }

  /** `String.prototype.includes`, searched left to right. */
  function Includes(hay: string, needle: string): bool
    decreases |hay|
  {
    if StartsWith(hay, needle) then true
    else if hay == [] then false
    else Includes(hay[1..], needle)
  }

  /** The search agrees with the offset-based reading of "occurs in". */
  lemma {:induction false} IncludesIffOccurs(hay: string, needle: string)
    ensures Includes(hay, needle) <==> exists i :: OccursAt(hay, needle, i)
    decreases |hay|
  {
    if StartsWith(hay, needle) {
      assert OccursAt(hay, needle, 0);
    } else if hay == [] {
      assert |needle| > 0;
    } else {
      IncludesIffOccurs(hay[1..], needle);
      if exists i :: OccursAt(hay, needle, i) {
        var i :| OccursAt(hay, needle, i);
        assert i != 0;
        assert hay[1..][i - 1..i - 1 + |needle|] == hay[i..i + |needle|];
        assert OccursAt(hay[1..], needle, i - 1);
      }
      if exists j :: OccursAt(hay[1..], needle, j) {
        var j :| OccursAt(hay[1..], needle, j);
        assert hay[1..][j..j + |needle|] == hay[j + 1..j + 1 + |needle|];
        assert OccursAt(hay, needle, j + 1);
      }
    }
  }

  /** The empty string occurs in every string. */
  lemma IncludesEmpty(hay: string)
    ensures Includes(hay, "")
  {
  }

  /** `toLowerCase` on one character; only ASCII capitals are folded. */
  function LowerChar(c: char): char
  {
    if 'A' <= c <= 'Z' then (c as int + 32) as char else c
  }

  /** `String.prototype.toLowerCase` restricted to ASCII letters. */
  function Lower(s: string): (r: string)
    ensures |r| == |s|
    ensures forall i :: 0 <= i < |s| ==> r[i] == LowerChar(s[i])
  {
    seq(|s|, i requires 0 <= i < |s| => LowerChar(s[i]))
  }

  /** JavaScript's `\s`: the white-space and line-terminator characters. */
  predicate IsSpace(c: char)
  {
    c == ' ' || c == '\t' || c == '\n' || c == '\r' || c == '\U{000B}' || c == '\U{000C}' ||
    c == '\U{00A0}' || c == '\U{1680}' || ('\U{2000}' <= c <= '\U{200A}') || c == '\U{2028}' ||
    c == '\U{2029}' || c == '\U{202F}' || c == '\U{205F}' || c == '\U{3000}' || c == '\U{FEFF}'
  }

  /** `!s.trim()`: nothing but white space is left, so the trimmed text is empty. */
  predicate Blank(s: string)
  {
    forall i :: 0 <= i < |s| ==> IsSpace(s[i])
  }

  /** Every character of `s` is an ASCII decimal digit. */
  predicate AllDigits(s: string)
  {
    forall i :: 0 <= i < |s| ==> '0' <= s[i] <= '9'
  }

  /** `s` with every occurrence of `c` removed (`s.replace(/c/g, '')`). */
  function RemoveChar(s: string, c: char): (r: string)
    ensures c !in r
    ensures |r| <= |s|
  {
    if s == [] then []
    else if s[0] == c then RemoveChar(s[1..], c)
    else [s[0]] + RemoveChar(s[1..], c)
  }

  /** Removal distributes over concatenation. */
  lemma {:induction false} RemoveCharAppend(a: string, b: string, c: char)
    ensures RemoveChar(a + b, c) == RemoveChar(a, c) + RemoveChar(b, c)
    decreases |a|
  {
    if a != [] {
      RemoveCharAppend(a[1..], b, c);
      assert (a + b)[0] == a[0];
      assert (a + b)[1..] == a[1..] + b;
    } else {
      assert a + b == b;
    }
  }

  /** A string without `c` is left alone. */
  lemma {:induction false} RemoveCharAbsent(s: string, c: char)
    requires c !in s
    ensures RemoveChar(s, c) == s
    decreases |s|
  {
    if s != [] {
      RemoveCharAbsent(s[1..], c);
      assert s == [s[0]] + s[1..];
    }
  }

  // ---------------------------------------------------------------------
  // Array.prototype.sort with the comparator (a, b) => key(a) - key(b)

  /** `r` is in ascending order of `key`. */
  ghost predicate SortedBy<T>(r: seq<T>, key: T -> int)
  {
    forall i, j :: 0 <= i < j < |r| ==> key(r[i]) <= key(r[j])
  }

  /** Place `x` before the first element whose key is not smaller. */
  function Insert<T>(x: T, s: seq<T>, key: T -> int): seq<T>
  {
    if s == [] || key(x) <= key(s[0]) then [x] + s
    else [s[0]] + Insert(x, s[1..], key)
  }

  /**
   * A stable sort: ascending by `key`, and elements with equal keys keep
   * their original order, as `Array.prototype.sort` guarantees.
   */
  function SortByKey<T>(s: seq<T>, key: T -> int): seq<T>
  {
    if s == [] then [] else Insert(s[0], SortByKey(s[1..], key), key)
  }

  lemma {:induction false} InsertFacts<T>(x: T, s: seq<T>, key: T -> int)
    requires SortedBy(s, key)
    ensures SortedBy(Insert(x, s, key), key)
    ensures multiset(Insert(x, s, key)) == multiset(s) + multiset{x}
    ensures |Insert(x, s, key)| == |s| + 1
    decreases |s|
  {
    InsertPermutes(x, s, key);
    if s != [] && key(x) > key(s[0]) {
      var tail := s[1..];
      assert SortedBy(tail, key) by {
        forall i, j | 0 <= i < j < |tail| ensures key(tail[i]) <= key(tail[j]) {
          assert tail[i] == s[i + 1] && tail[j] == s[j + 1];
        }
      }
      InsertFacts(x, tail, key);
      var t := Insert(x, tail, key);
      var r := Insert(x, s, key);
      assert r == [s[0]] + t;
      forall k | 0 <= k < |t| ensures key(s[0]) <= key(t[k]) {
        forall i | 0 <= i < |tail| ensures key(s[0]) <= key(tail[i]) {
          assert tail[i] == s[i + 1];
        }
        InsertBounded(x, tail, key, key(s[0]), k);
      }
      forall i, j | 0 <= i < j < |r| ensures key(r[i]) <= key(r[j]) {
        if i == 0 {
          assert r[j] == t[j - 1];
        } else {
          assert r[i] == t[i - 1] && r[j] == t[j - 1];
        }
      }
    }
  }

  /** An insertion holds `x` and the elements of `s`, once each. */
  lemma {:induction false} InsertPermutes<T>(x: T, s: seq<T>, key: T -> int)
    ensures multiset(Insert(x, s, key)) == multiset(s) + multiset{x}
    ensures |Insert(x, s, key)| == |s| + 1
    decreases |s|
  {
    if s != [] && key(x) > key(s[0]) {
      InsertPermutes(x, s[1..], key);
      assert s == [s[0]] + s[1..];
    }
  }

  /** Every element of an insertion is `x` or an element of `s`, so a common lower bound survives. */
  lemma {:induction false} InsertBounded<T>(x: T, s: seq<T>, key: T -> int, lo: int, k: int)
    requires lo <= key(x)
    requires forall i :: 0 <= i < |s| ==> lo <= key(s[i])
    requires 0 <= k < |Insert(x, s, key)|
    ensures lo <= key(Insert(x, s, key)[k])
    decreases |s|
  {
    if s == [] || key(x) <= key(s[0]) {
    } else if k > 0 {
      InsertBounded(x, s[1..], key, lo, k - 1);
    }
  }

  /** The sort orders by key and is a permutation of its input. */
  lemma {:induction false} SortByKeyCorrect<T>(s: seq<T>, key: T -> int)
    ensures SortedBy(SortByKey(s, key), key)
    ensures multiset(SortByKey(s, key)) == multiset(s)
    ensures |SortByKey(s, key)| == |s|
    decreases |s|
  {
    if s != [] {
      SortByKeyCorrect(s[1..], key);
      InsertFacts(s[0], SortByKey(s[1..], key), key);
      assert s == [s[0]] + s[1..];
    }
  }

  /** Inserting `x` passes over smaller keys only, so among the elements of one key it lands first. */
  lemma {:induction false} InsertFilter<T>(x: T, t: seq<T>, key: T -> int, p: T -> bool, c: int)
    requires forall y :: p(y) == (key(y) == c)
    ensures Filter(Insert(x, t, key), p) == if p(x) then [x] + Filter(t, p) else Filter(t, p)
    decreases |t|
  {
    var r := Insert(x, t, key);
    if t == [] || key(x) <= key(t[0]) {
      assert r[0] == x && r[1..] == t;
    } else {
      InsertFilter(x, t[1..], key, p, c);
      assert r[0] == t[0] && r[1..] == Insert(x, t[1..], key);
      if p(x) {
        assert !p(t[0]);
      }
    }
  }

  /**
   * Stability: for every key value, the elements with that key come out of
   * the sort in the order they went in.
   */
  lemma {:induction false} SortByKeyStable<T>(s: seq<T>, key: T -> int, p: T -> bool, c: int)
    requires forall y :: p(y) == (key(y) == c)
    ensures Filter(SortByKey(s, key), p) == Filter(s, p)
    decreases |s|
  {
    if s != [] {
      SortByKeyStable(s[1..], key, p, c);
      InsertFilter(s[0], SortByKey(s[1..], key), key, p, c);
    }
  }

  /** With a comparator that finds every pair equal, the stable sort changes nothing. */
  lemma {:induction false} SortByConstantKey<T>(s: seq<T>, key: T -> int, c: int)
    requires forall x :: key(x) == c
    ensures SortByKey(s, key) == s
    decreases |s|
  {
    if s != [] {
      SortByConstantKey(s[1..], key, c);
      assert s == [s[0]] + s[1..];
    }
  }

  // ---------------------------------------------------------------------
  // Numbers

  /** JavaScript's `%`: the remainder takes the sign of the dividend. */
  function JsRem(a: int, n: int): (r: int)
    requires n > 0
    ensures a >= 0 ==> r == a % n && 0 <= r < n
    ensures a < 0 ==> -n < r <= 0
    ensures (a - r) % n == 0
  {
    if a >= 0 then
      QuotientMultiple(a, n);
      a % n
    else
      QuotientMultiple(-a, n);
      -((-a) % n)
  }

  /** Taking away the remainder leaves a multiple of `n`, whichever sign it is read with. */
  lemma QuotientMultiple(x: int, n: int)
    requires n > 0
    ensures (x - x % n) % n == 0
    ensures (-x + x % n) % n == 0
  {
    var q := x / n;
    assert x - x % n == n * q;
    assert -x + x % n == n * -q;
    MultipleHasNoRemainder(n, q);
    MultipleHasNoRemainder(n, -q);
  }

  /** A multiple of `n` leaves no remainder. */
  lemma MultipleHasNoRemainder(n: int, k: int)
    requires n > 0
    ensures (n * k) % n == 0
  {
    var d := k - (n * k) / n;
    assert n * d == (n * k) % n;
    if d >= 1 {
      assert false;
    }
  }

  /** `Math.ceil(a / b)` for a non-negative count and a positive page size. */
  function CeilDiv(a: nat, b: nat): (r: nat)
    requires b > 0
    ensures (r - 1) * b < a <= r * b || (a == 0 && r == 0)
  {
    (a + b - 1) / b
  }
}
