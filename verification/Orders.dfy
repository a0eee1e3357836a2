/** String order and sorting, as used by every canonical form in the settlement code:
    request ids, wallets and hash items are all sorted before they are hashed or paid. */
module Orders {

  datatype Option<+T> = None | Some(value: T)

  /** Bytewise string comparison, the order of Go's `<` on strings. */
  predicate StrLe(a: string, b: string) {
    a == [] || (b != [] && (a[0] < b[0] || (a[0] == b[0] && StrLe(a[1..], b[1..]))))
  }

  /** Field-by-field comparison of a list of string fields, the shape of every
      multi-field comparison passed to the library sort. */
  predicate KeyLe(a: seq<string>, b: seq<string>) {
    a == [] || (b != [] && if a[0] == b[0] then KeyLe(a[1..], b[1..]) else StrLe(a[0], b[0]))
  }

  ghost predicate Sorted<T>(key: T -> seq<string>, s: seq<T>) {
    forall i, j | 0 <= i < j < |s| :: KeyLe(key(s[i]), key(s[j]))
  }

  ghost predicate Distinct<T>(s: seq<T>) {
    forall i, j | 0 <= i < j < |s| :: s[i] != s[j]
  }

  function Insert<T>(key: T -> seq<string>, x: T, s: seq<T>): seq<T> {
    if s == [] then [x]
    else if KeyLe(key(x), key(s[0])) then [x] + s
    else [s[0]] + Insert(key, x, s[1..])
  }

  /** The library sort, written as an insertion sort. */
  function Sort<T>(key: T -> seq<string>, s: seq<T>): seq<T> {
    if s == [] then [] else Insert(key, s[0], Sort(key, s[1..]))
  }

  lemma {:induction false} StrLeTotal(a: string, b: string)
    ensures StrLe(a, b) || StrLe(b, a)
  {
    if a != [] && b != [] { StrLeTotal(a[1..], b[1..]); }
  }

  lemma {:induction false} StrLeAntisymmetric(a: string, b: string)
    requires StrLe(a, b) && StrLe(b, a)
    ensures a == b
  {
    if a != [] && b != [] {
      StrLeAntisymmetric(a[1..], b[1..]);
      assert a == [a[0]] + a[1..];
    }
  }

  lemma {:induction false} StrLeTransitive(a: string, b: string, c: string)
    requires StrLe(a, b) && StrLe(b, c)
    ensures StrLe(a, c)
  {
    if a != [] && a[0] == b[0] == c[0] { StrLeTransitive(a[1..], b[1..], c[1..]); }
  }

  lemma {:induction false} KeyLeTotal(a: seq<string>, b: seq<string>)
    ensures KeyLe(a, b) || KeyLe(b, a)
  {
    if a != [] && b != [] {
      StrLeTotal(a[0], b[0]);
      KeyLeTotal(a[1..], b[1..]);
    }
  }

  lemma {:induction false} KeyLeAntisymmetric(a: seq<string>, b: seq<string>)
    requires KeyLe(a, b) && KeyLe(b, a)
    ensures a == b
  {
    if a != [] && b != [] {
      if a[0] == b[0] { KeyLeAntisymmetric(a[1..], b[1..]); } else { StrLeAntisymmetric(a[0], b[0]); }
      assert a == [a[0]] + a[1..];
    }
  }

  lemma {:induction false} KeyLeTransitive(a: seq<string>, b: seq<string>, c: seq<string>)
    requires KeyLe(a, b) && KeyLe(b, c)
    ensures KeyLe(a, c)
  {
    if a != [] {
      if a[0] == b[0] == c[0] {
        KeyLeTransitive(a[1..], b[1..], c[1..]);
      } else if a[0] == c[0] {
        StrLeAntisymmetric(a[0], b[0]);
      } else if a[0] != b[0] && b[0] != c[0] {
        StrLeTransitive(a[0], b[0], c[0]);
      }
    }
  }

  lemma SortedCons<T>(key: T -> seq<string>, x: T, s: seq<T>)
    requires Sorted(key, s)
    requires forall y | y in s :: KeyLe(key(x), key(y))
    ensures Sorted(key, [x] + s)
  {
    var r := [x] + s;
    forall i, j | 0 <= i < j < |r| ensures KeyLe(key(r[i]), key(r[j])) {
      if i == 0 { assert r[j] == s[j - 1]; } else { assert r[i] == s[i - 1] && r[j] == s[j - 1]; }
    }
  }

  lemma {:induction false} InsertSorts<T>(key: T -> seq<string>, x: T, s: seq<T>)
    requires Sorted(key, s)
    ensures Sorted(key, Insert(key, x, s))
    ensures multiset(Insert(key, x, s)) == multiset([x] + s)
  {
    if s != [] {
      if KeyLe(key(x), key(s[0])) {
        forall j | 0 <= j < |s| ensures KeyLe(key(x), key(s[j])) {
          if j > 0 { KeyLeTransitive(key(x), key(s[0]), key(s[j])); }
        }
        SortedCons(key, x, s);
      } else {
        KeyLeTotal(key(x), key(s[0]));
        InsertSorts(key, x, s[1..]);
        var r := Insert(key, x, s[1..]);
        forall y | y in r ensures KeyLe(key(s[0]), key(y)) {
          assert y in multiset(r);
          assert y == x || y in s[1..];
        }
        SortedCons(key, s[0], r);
        assert s == [s[0]] + s[1..];
      }
    }
  }

  lemma {:induction false} SortSorts<T>(key: T -> seq<string>, s: seq<T>)
    ensures Sorted(key, Sort(key, s))
    ensures multiset(Sort(key, s)) == multiset(s)
  {
    if s != [] {
      SortSorts(key, s[1..]);
      InsertSorts(key, s[0], Sort(key, s[1..]));
      assert s == [s[0]] + s[1..];
    }
  }

  lemma SortedHeadIsLeast<T>(key: T -> seq<string>, s: seq<T>, x: T)
    requires Sorted(key, s) && x in s
    ensures KeyLe(key(s[0]), key(x))
  {
    var i :| 0 <= i < |s| && s[i] == x;
    if i == 0 { KeyLeTotal(key(x), key(x)); }
  }

  /** A sorted arrangement is unique when the fields compared tell the elements apart:
      this is what makes sorting a canonical form. */
  lemma {:induction false} SortedIsUnique<T>(key: T -> seq<string>, a: seq<T>, b: seq<T>)
    requires forall x, y | x in a && y in a && key(x) == key(y) :: x == y
    requires Sorted(key, a) && Sorted(key, b) && multiset(a) == multiset(b)
    ensures a == b
  {
    assert |multiset(a)| == |a| && |multiset(b)| == |b|;
    if a != [] {
      assert b[0] in multiset(b) && a[0] in multiset(a);
      assert a[0] in b && b[0] in a;
      assert a[0] == b[0] by {
        SortedHeadIsLeast(key, a, b[0]);
        SortedHeadIsLeast(key, b, a[0]);
        KeyLeAntisymmetric(key(a[0]), key(b[0]));
      }
      TailsAgree(a, b);
      SortedTail(key, a);
      SortedTail(key, b);
      SortedIsUnique(key, a[1..], b[1..]);
      assert a == [a[0]] + a[1..] && b == [b[0]] + b[1..];
    }
  }

  lemma SortedTail<T>(key: T -> seq<string>, s: seq<T>)
    requires s != [] && Sorted(key, s)
    ensures Sorted(key, s[1..])
  {
  }

  lemma TailsAgree<T>(a: seq<T>, b: seq<T>)
    requires a != [] && b != [] && a[0] == b[0] && multiset(a) == multiset(b)
    ensures multiset(a[1..]) == multiset(b[1..])
  {
    assert a == [a[0]] + a[1..] && b == [b[0]] + b[1..];
    assert multiset(a[1..]) == multiset(a) - multiset{a[0]};
    assert multiset(b[1..]) == multiset(b) - multiset{a[0]};
  }

  lemma TwiceThere<T>(s: seq<T>, i: nat, j: nat)
    requires i < j < |s| && s[i] == s[j]
    ensures multiset(s)[s[i]] >= 2
  {
    assert s == s[..j] + s[j..] && s[i] in s[..j] && s[i] in s[j..];
  }

  lemma SetListDistinct<T>(q: seq<T>, s: set<T>)
    requires multiset(q) == multiset(s)
    ensures Distinct(q)
  {
    forall i, j | 0 <= i < j < |q| ensures q[i] != q[j] {
      assert q == q[..j] + q[j..];
      assert multiset(q)[q[j]] <= 1 && q[j] in q[j..];
      assert q[j] !in multiset(q[..j]);
      assert q[i] in q[..j];
    }
  }
}
