/** Strings as the wire and the directory order, join and print them: lexicographic
    order, a stable sort by a string key, joining with a separator, and decimals. */
module Text {

  // ---- Order

  /** Code-point order on strings, shorter prefix first. */
  predicate LexLeq(a: string, b: string)
  {
    a == [] || (b != [] && (a[0] < b[0] || (a[0] == b[0] && LexLeq(a[1..], b[1..]))))
  }

  /** Where two strings first differ. */
  predicate DifferAt(a: string, b: string, i: nat)
  {
    i < |a| && i < |b| && a[..i] == b[..i] && a[i] != b[i]
  }

  /** Dictionary order: a first part stands first, and otherwise the first difference
      decides, the smaller character first. */
  lemma {:induction false} FirstDifferenceDecides(a: string, b: string, i: nat)
    ensures a <= b ==> LexLeq(a, b)
    ensures DifferAt(a, b, i) ==> (LexLeq(a, b) <==> a[i] < b[i])
  {
    if a != [] && b != [] && a[0] == b[0] {
      FirstDifferenceDecides(a[1..], b[1..], if i > 0 then i - 1 else 0);
      if DifferAt(a, b, i) {
        assert i > 0 && a[..i][1..] == a[1..][..i - 1] && b[..i][1..] == b[1..][..i - 1];
      }
    }
  }

  lemma {:induction false} LexTotal(a: string, b: string)
    ensures LexLeq(a, b) || LexLeq(b, a)
  {
    if a != [] && b != [] && a[0] == b[0] {
      LexTotal(a[1..], b[1..]);
    }
  }

  lemma {:induction false} LexAntisymmetric(a: string, b: string)
    requires LexLeq(a, b) && LexLeq(b, a)
    ensures a == b
  {
    if a != [] && b != [] {
      LexAntisymmetric(a[1..], b[1..]);
      assert a == [a[0]] + a[1..] && b == [b[0]] + b[1..];
    }
  }

  lemma {:induction false} LexTransitive(a: string, b: string, c: string)
    requires LexLeq(a, b) && LexLeq(b, c)
    ensures LexLeq(a, c)
  {
    if a != [] && a[0] == b[0] == c[0] {
      LexTransitive(a[1..], b[1..], c[1..]);
    }
  }

  // ---- Stable sort by a string key

  ghost predicate SortedBy<T(!new)>(s: seq<T>, key: T -> string)
  {
    forall i, j :: 0 <= i < j < |s| ==> LexLeq(key(s[i]), key(s[j]))
  }

  function Insert<T>(x: T, s: seq<T>, key: T -> string): (r: seq<T>)
    ensures multiset(r) == multiset([x]) + multiset(s)
  {
    if s == [] || LexLeq(key(x), key(s[0])) then
      [x] + s
    else
      assert s == [s[0]] + s[1..];
      [s[0]] + Insert(x, s[1..], key)
  }

  /** Where `Insert` puts its element. */
  function Position<T>(x: T, s: seq<T>, key: T -> string): (k: nat)
    ensures k <= |s|
  {
    if s == [] || LexLeq(key(x), key(s[0])) then 0 else 1 + Position(x, s[1..], key)
  }

  lemma {:induction false} InsertAtPosition<T>(x: T, s: seq<T>, key: T -> string)
    ensures var k := Position(x, s, key);
            Insert(x, s, key) == s[..k] + [x] + s[k..]
  {
    if s != [] && !LexLeq(key(x), key(s[0])) {
      InsertAtPosition(x, s[1..], key);
      var k := Position(x, s[1..], key);
      assert s[..k + 1] == [s[0]] + s[1..][..k] && s[k + 1..] == s[1..][k..];
    }
  }

  /** Elements with equal keys keep the order they came in. */
  function Sort<T>(s: seq<T>, key: T -> string): (r: seq<T>)
    ensures multiset(r) == multiset(s)
    ensures |r| == |s|
  {
    if s == [] then [] else
      assert s == [s[0]] + s[1..];
      var r := Insert(s[0], Sort(s[1..], key), key);
      SameMultisetSameLength(r, s);
      r
  }

  lemma SameMultisetSameLength<T>(a: seq<T>, b: seq<T>)
    requires multiset(a) == multiset(b)
    ensures |a| == |b|
  {
    assert |multiset(a)| == |a| && |multiset(b)| == |b|;
  }

  lemma {:induction false} InsertKeepsSorted<T(!new)>(x: T, s: seq<T>, key: T -> string)
    requires SortedBy(s, key)
    ensures SortedBy(Insert(x, s, key), key)
  {
    if s == [] {
    } else if LexLeq(key(x), key(s[0])) {
      forall j | 0 <= j < |s| ensures LexLeq(key(x), key(s[j])) {
        if j > 0 { LexTransitive(key(x), key(s[0]), key(s[j])); }
      }
    } else {
      LexTotal(key(x), key(s[0]));
      InsertKeepsSorted(x, s[1..], key);
      var t := Insert(x, s[1..], key);
      forall j | 0 <= j < |t| ensures LexLeq(key(s[0]), key(t[j])) {
        assert t[j] in multiset(t);
        assert t[j] == x || t[j] in s[1..];
      }
    }
  }

  lemma {:induction false} SortSorts<T(!new)>(s: seq<T>, key: T -> string)
    ensures SortedBy(Sort(s, key), key)
  {
    if s != [] {
      SortSorts(s[1..], key);
      InsertKeepsSorted(s[0], Sort(s[1..], key), key);
    }
  }

  ghost predicate KeyInjectiveOn<T(!new)>(s: seq<T>, key: T -> string)
  {
    forall x, y :: x in s && y in s && key(x) == key(y) ==> x == y
  }

  lemma {:induction false} SortedIsUnique<T(!new)>(a: seq<T>, b: seq<T>, key: T -> string)
    requires SortedBy(a, key) && SortedBy(b, key)
    requires multiset(a) == multiset(b) && KeyInjectiveOn(a, key)
    ensures a == b
  {
    SameMultisetSameLength(a, b);
    if a != [] {
      HeadsAgree(a, b, key);
      TailMultiset(a);
      TailMultiset(b);
      TailKeysInjective(a, key);
      SortedIsUnique(a[1..], b[1..], key);
    }
  }

  lemma TailMultiset<T>(s: seq<T>)
    requires s != []
    ensures s == [s[0]] + s[1..]
    ensures multiset(s[1..]) == multiset(s) - multiset{s[0]}
  {
    assert s == [s[0]] + s[1..];
  }

  lemma TailKeysInjective<T(!new)>(s: seq<T>, key: T -> string)
    requires s != [] && KeyInjectiveOn(s, key)
    ensures KeyInjectiveOn(s[1..], key)
  {
    assert forall x :: x in s[1..] ==> x in s;
  }

  lemma HeadsAgree<T(!new)>(a: seq<T>, b: seq<T>, key: T -> string)
    requires SortedBy(a, key) && SortedBy(b, key) && a != [] && b != []
    requires multiset(a) == multiset(b) && KeyInjectiveOn(a, key)
    ensures a[0] == b[0]
  {
    assert a[0] in multiset(b) && b[0] in multiset(a);
    HeadIsLeast(b, key, a[0]);
    HeadIsLeast(a, key, b[0]);
    LexAntisymmetric(key(a[0]), key(b[0]));
  }

  lemma HeadIsLeast<T(!new)>(s: seq<T>, key: T -> string, x: T)
    requires SortedBy(s, key) && x in s
    ensures LexLeq(key(s[0]), key(x))
  {
    var i :| 0 <= i < |s| && s[i] == x;
    if i == 0 { LexReflexive(key(x)); }
  }

  lemma {:induction false} LexReflexive(a: string)
    ensures LexLeq(a, a)
  {
    LexTotal(a, a);
  }

  /** The sorted form of a list depends only on which elements are in it, once no two
      different elements share a key. */
  lemma SortIgnoresOrder<T(!new)>(a: seq<T>, b: seq<T>, key: T -> string)
    requires multiset(a) == multiset(b) && KeyInjectiveOn(a, key)
    ensures Sort(a, key) == Sort(b, key)
  {
    SortSorts(a, key);
    SortSorts(b, key);
    forall x | x in Sort(a, key) ensures x in a {
      assert x in multiset(Sort(a, key));
    }
    SortedIsUnique(Sort(a, key), Sort(b, key), key);
  }

  // ---- Cutting at a character

  datatype Cut = NoCut | CutAt(before: string, after: string)

  function CutFirst(s: string, c: char): Cut
  {
    if s == [] then NoCut
    else if s[0] == c then CutAt([], s[1..])
    else
      match CutFirst(s[1..], c)
      case NoCut => NoCut
      case CutAt(a, b) => CutAt([s[0]] + a, b)
  }

  lemma {:induction false} CutFirstOf(a: string, c: char, b: string)
    requires c !in a
    ensures CutFirst(a + [c] + b, c) == CutAt(a, b)
  {
    var s := a + [c] + b;
    if a == [] {
      assert s[1..] == b;
    } else {
      assert s[1..] == a[1..] + [c] + b;
      CutFirstOf(a[1..], c, b);
      assert a == [a[0]] + a[1..];
    }
  }

  function CutLast(s: string, c: char): Cut
  {
    if s == [] then NoCut
    else
      var n := |s| - 1;
      if s[n] == c then CutAt(s[..n], [])
      else
        match CutLast(s[..n], c)
        case NoCut => NoCut
        case CutAt(a, b) => CutAt(a, b + [s[n]])
  }

  lemma {:induction false} CutLastOf(a: string, c: char, b: string)
    requires c !in b
    ensures CutLast(a + [c] + b, c) == CutAt(a, b)
  {
    var s := a + [c] + b;
    var n := |s| - 1;
    if b == [] {
      assert s[..n] == a;
    } else {
      var m := |b| - 1;
      assert s[..n] == a + [c] + b[..m];
      CutLastOf(a, c, b[..m]);
      assert b == b[..m] + [b[m]];
    }
  }

  // ---- Joining and splitting

  function Join(parts: seq<string>, c: char): string
  {
    if parts == [] then []
    else if |parts| == 1 then parts[0]
    else parts[0] + [c] + Join(parts[1..], c)
  }

  function Split(s: string, c: char): (r: seq<string>)
    ensures r != []
  {
    if s == [] then [[]]
    else
      var rest := Split(s[1..], c);
      if s[0] == c then [[]] + rest else [[s[0]] + rest[0]] + rest[1..]
  }

  lemma {:induction false} SplitOfPart(a: string, c: char, s: string)
    requires c !in a
    ensures Split(a, c) == [a]
    ensures Split(a + [c] + s, c) == [a] + Split(s, c)
  {
    var t := a + [c] + s;
    if a == [] {
      assert t[1..] == s;
    } else {
      assert t[1..] == a[1..] + [c] + s;
      SplitOfPart(a[1..], c, s);
      assert a == [a[0]] + a[1..];
    }
  }

  lemma {:induction false} SplitUndoesJoin(parts: seq<string>, c: char)
    requires parts != [] && forall i :: 0 <= i < |parts| ==> c !in parts[i]
    ensures Split(Join(parts, c), c) == parts
  {
    if |parts| == 1 {
      SplitOfPart(parts[0], c, []);
    } else {
      SplitUndoesJoin(parts[1..], c);
      SplitOfPart(parts[0], c, Join(parts[1..], c));
      assert parts == [parts[0]] + parts[1..];
    }
  }

  // ---- Decimals

  function Digit(d: nat): (c: char)
    requires d < 10
    ensures '0' <= c <= '9'
  {
    '0' + d as char
  }

  function DecimalNat(n: nat): (s: string)
    ensures s != [] && forall i :: 0 <= i < |s| ==> '0' <= s[i] <= '9'
  {
    if n < 10 then [Digit(n)] else DecimalNat(n / 10) + [Digit(n % 10)]
  }

  function Decimal(n: int): (s: string)
    ensures ':' !in s
  {
    if n < 0 then "-" + DecimalNat(-n) else DecimalNat(n)
  }

  function ParseDecimalNat(s: string): int
    requires forall i :: 0 <= i < |s| ==> '0' <= s[i] <= '9'
  {
    if s == [] then 0 else 10 * ParseDecimalNat(s[..|s| - 1]) + (s[|s| - 1] as int - '0' as int)
  }

  predicate IsDecimalNat(s: string)
  {
    s != [] && forall i :: 0 <= i < |s| ==> '0' <= s[i] <= '9'
  }

  datatype Number = NaN | Num(value: int)

  function ParseDecimal(s: string): Number
  {
    if IsDecimalNat(s) then Num(ParseDecimalNat(s))
    else if s != [] && s[0] == '-' && IsDecimalNat(s[1..]) then Num(-ParseDecimalNat(s[1..]))
    else NaN
  }

  lemma {:induction false} ParseUndoesDecimalNat(n: nat)
    ensures ParseDecimalNat(DecimalNat(n)) == n
  {
    if n < 10 {
      assert [Digit(n)][..0] == [];
    } else {
      ParseUndoesDecimalNat(n / 10);
      var s := DecimalNat(n);
      assert s[..|s| - 1] == DecimalNat(n / 10);
    }
  }

  lemma ParseUndoesDecimal(n: int)
    ensures ParseDecimal(Decimal(n)) == Num(n)
  {
    if n < 0 {
      ParseUndoesDecimalNat(-n);
      var s := Decimal(n);
      assert s[0] == '-' && s[1..] == DecimalNat(-n);
    } else {
      ParseUndoesDecimalNat(n);
    }
  }
}
