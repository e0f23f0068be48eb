/**
 * PHP's ordered arrays: entries in insertion order, each under an integer
 * or a string key. The operations are those the commands use: reading
 * `$a[k]`, assigning `$a[k] = v`, appending `$a[] = v`, `unset($a[k])`,
 * and the conversion of a string offset into a key.
 */
module PhpArray {
  import opened Wrappers

  datatype Key = IntKey(n: int) | StrKey(s: string)

  const PHP_INT_MAX: int := 0x7FFF_FFFF_FFFF_FFFF
  const PHP_INT_MIN: int := -0x8000_0000_0000_0000

  /** The entries of an array, in order. */
  type Entries<V> = seq<(Key, V)>

  /** No key occurs twice; every PHP array is like this. */
  predicate Valid<V>(a: Entries<V>)
  {
    forall i, j :: 0 <= i < j < |a| ==> a[i].0 != a[j].0
  }

  function KeysOf<V>(a: Entries<V>): (ks: seq<Key>)
    ensures |ks| == |a|
    ensures forall i :: 0 <= i < |a| ==> ks[i] == a[i].0
  {
    seq(|a|, i requires 0 <= i < |a| => a[i].0)
  }

  /** The values in order, as `foreach ($a as $item)` visits them. */
  function ValuesOf<V>(a: Entries<V>): (vs: seq<V>)
    ensures |vs| == |a|
    ensures forall i :: 0 <= i < |a| ==> vs[i] == a[i].1
  {
    seq(|a|, i requires 0 <= i < |a| => a[i].1)
  }

  /** The list of `vs` with keys 0, 1, 2, ... */
  function Indexed<V>(vs: seq<V>): (a: Entries<V>)
    ensures |a| == |vs|
    ensures forall i :: 0 <= i < |vs| ==> a[i] == (IntKey(i), vs[i])
  {
    seq(|vs|, i requires 0 <= i < |vs| => (IntKey(i), vs[i]))
  }

  /** The position of key k, or -1 when k is not a key. */
  function IndexOf<V>(a: Entries<V>, k: Key): (i: int)
    ensures -1 <= i < |a|
    ensures i >= 0 ==> a[i].0 == k && forall j :: 0 <= j < i ==> a[j].0 != k
    ensures i < 0 ==> forall j :: 0 <= j < |a| ==> a[j].0 != k
    decreases |a|
  {
    if |a| == 0 then -1
    else if a[0].0 == k then 0
    else
      var j := IndexOf(a[1..], k);
      if j < 0 then -1 else j + 1
  }

  /** array_key_exists(k, a). */
  predicate HasKey<V>(a: Entries<V>, k: Key)
  {
    IndexOf(a, k) >= 0
  }

  /** Reading `$a[k]`: None when k is not a key. */
  function Get<V>(a: Entries<V>, k: Key): Option<V>
  {
    var i := IndexOf(a, k);
    if i >= 0 then Some(a[i].1) else None
  }

  /** Arrays with the same keys at the same positions find every key at the same position. */
  lemma IndexOfSameKeys<V>(a: Entries<V>, b: Entries<V>, k: Key)
    requires |a| == |b|
    requires forall i :: 0 <= i < |a| ==> a[i].0 == b[i].0
    ensures IndexOf(a, k) == IndexOf(b, k)
  {
    var i, j := IndexOf(a, k), IndexOf(b, k);
    if i >= 0 {
      assert b[i].0 == k;
    }
    if j >= 0 {
      assert a[j].0 == k;
    }
  }

  /** Appending an entry under key k leaves every other key where it was. */
  lemma IndexOfAppend<V>(a: Entries<V>, k: Key, v: V, k': Key)
    requires IndexOf(a, k) < 0
    ensures IndexOf(a + [(k, v)], k') == if k' == k then |a| else IndexOf(a, k')
  {
    var b := a + [(k, v)];
    var i := IndexOf(b, k');
    if k' == k {
      assert b[|a|].0 == k;
    } else {
      var j := IndexOf(a, k');
      if j >= 0 {
        assert b[j].0 == k';
      }
      if i >= 0 {
        assert i < |a|;
        assert a[i].0 == k';
      }
    }
  }

  /** Removing the entry at position i moves the later entries one place forward. */
  lemma IndexOfRemove<V>(a: Entries<V>, i: nat, k': Key)
    requires i < |a| && a[i].0 != k'
    ensures IndexOf(a[..i] + a[i + 1..], k')
         == var j := IndexOf(a, k'); if j < 0 || j < i then j else j - 1
  {
    var b := a[..i] + a[i + 1..];
    assert forall m :: 0 <= m < i ==> b[m] == a[m];
    assert forall m :: i <= m < |b| ==> b[m] == a[m + 1];
    var j := IndexOf(a, k');
    var l := IndexOf(b, k');
    if j >= 0 && j < i {
      assert b[j].0 == k';
    } else if j > i {
      assert b[j - 1].0 == k';
    }
    if l >= 0 && l < i {
      assert a[l].0 == k';
    } else if l >= i {
      assert a[l + 1].0 == k';
    }
  }

  /** Assigning `$a[k] = v`: the value of an existing key is replaced in its slot; a new key is appended. */
  function Set<V>(a: Entries<V>, k: Key, v: V): (r: Entries<V>)
    ensures Valid(a) ==> Valid(r)
    ensures Get(r, k) == Some(v)
    ensures forall k' :: k' != k ==> Get(r, k') == Get(a, k')
    ensures KeysOf(r) == if HasKey(a, k) then KeysOf(a) else KeysOf(a) + [k]
  {
    var i := IndexOf(a, k);
    if i >= 0 then
      var r := a[i := (k, v)];
      forall k' ensures IndexOf(r, k') == IndexOf(a, k') {
        IndexOfSameKeys(r, a, k');
      }
      r
    else
      var r := a + [(k, v)];
      forall k' ensures IndexOf(r, k') == if k' == k then |a| else IndexOf(a, k') {
        IndexOfAppend(a, k, v, k');
      }
      r
  }

  /**
   * The key `$a[] = v` uses: one past the largest integer key, but never
   * below 0 (the rule of PHP before 8.3 for arrays whose integer keys are
   * all negative).
   */
  function NextIndex<V>(a: Entries<V>): (n: int)
    ensures n >= 0
    ensures forall i :: 0 <= i < |a| && a[i].0.IntKey? ==> a[i].0.n < n
    ensures n == 0 || exists i :: 0 <= i < |a| && a[i].0 == IntKey(n - 1)
    decreases |a|
  {
    if |a| == 0 then 0
    else
      var m := NextIndex(a[..|a| - 1]);
      match a[|a| - 1].0
      case IntKey(k) => if k + 1 > m then k + 1 else m
      case StrKey(_) => m
  }

  /** A list with keys 0 .. n-1 appends at n. */
  lemma NextIndexIndexed<V>(vs: seq<V>)
    ensures NextIndex(Indexed(vs)) == |vs|
  {
    var a := Indexed(vs);
    var n := NextIndex(a);
    if |vs| > 0 {
      assert a[|vs| - 1].0 == IntKey(|vs| - 1);
    }
    if n > 0 {
      var i :| 0 <= i < |a| && a[i].0 == IntKey(n - 1);
    }
  }

  /** Appending `$a[] = v`: the new entry goes last, under a key the array did not have. */
  function Push<V>(a: Entries<V>, v: V): (r: Entries<V>)
    ensures !HasKey(a, IntKey(NextIndex(a)))
    ensures Valid(a) ==> Valid(r)
  {
    a + [(IntKey(NextIndex(a)), v)]
  }

  /** Appending is assigning under the next index, which is always a new key. */
  lemma PushIsSet<V>(a: Entries<V>, v: V)
    ensures Push(a, v) == Set(a, IntKey(NextIndex(a)), v)
  {
  }

  /** Appending to a list with keys 0 .. n-1 gives the list with one more value. */
  lemma PushIndexed<V>(vs: seq<V>, v: V)
    ensures Push(Indexed(vs), v) == Indexed(vs + [v])
  {
    NextIndexIndexed(vs);
  }

  /** `unset($a[k])`: the entry under k is removed, the others keep their keys and their order. */
  function Unset<V>(a: Entries<V>, k: Key): (r: Entries<V>)
    ensures Valid(a) ==> Valid(r) && !HasKey(r, k)
    ensures forall k' :: k' != k ==> Get(r, k') == Get(a, k')
    ensures |r| == if HasKey(a, k) then |a| - 1 else |a|
  {
    var i := IndexOf(a, k);
    if i < 0 then a
    else
      var r := a[..i] + a[i + 1..];
      assert forall m :: 0 <= m < i ==> r[m] == a[m];
      assert forall m :: i <= m < |r| ==> r[m] == a[m + 1];
      forall k' | k' != k ensures Get(r, k') == Get(a, k') {
        IndexOfRemove(a, i, k');
      }
      r
  }

  /** Reference definition for unset: every entry whose key is not k, in order. */
  function Drop<V>(a: Entries<V>, k: Key): Entries<V>
    decreases |a|
  {
    if a == [] then [] else (if a[0].0 == k then [] else [a[0]]) + Drop(a[1..], k)
  }

  lemma {:induction false} DropAbsent<V>(a: Entries<V>, k: Key)
    requires forall i :: 0 <= i < |a| ==> a[i].0 != k
    ensures Drop(a, k) == a
    decreases |a|
  {
    if a != [] {
      DropAbsent(a[1..], k);
      assert a == [a[0]] + a[1..];
    }
  }

  /** When the key at position i occurs nowhere else, dropping it removes that one entry. */
  lemma {:induction false} DropAt<V>(a: Entries<V>, i: nat)
    requires i < |a|
    requires forall j :: 0 <= j < |a| && j != i ==> a[j].0 != a[i].0
    ensures Drop(a, a[i].0) == a[..i] + a[i + 1..]
    decreases i
  {
    var k := a[i].0;
    var tail := a[1..];
    if i == 0 {
      forall m | 0 <= m < |tail| ensures tail[m].0 != k {
        assert tail[m] == a[m + 1];
      }
      DropAbsent(tail, k);
    } else {
      assert tail[i - 1] == a[i];
      forall j | 0 <= j < |tail| && j != i - 1 ensures tail[j].0 != tail[i - 1].0 {
        assert tail[j] == a[j + 1];
      }
      DropAt(tail, i - 1);
      assert a[0].0 != k;
      assert [a[0]] + (tail[..i - 1] + tail[i..]) == a[..i] + a[i + 1..];
    }
  }

  /** On a valid array, unset removes exactly the entries under k and keeps the others in order. */
  lemma UnsetIsDrop<V>(a: Entries<V>, k: Key)
    requires Valid(a)
    ensures Unset(a, k) == Drop(a, k)
  {
    var i := IndexOf(a, k);
    if i < 0 {
      DropAbsent(a, k);
    } else {
      DropAt(a, i);
    }
  }

  predicate IsDigit(c: char)
  {
    '0' <= c <= '9'
  }

  predicate AllDigits(s: string)
  {
    forall i :: 0 <= i < |s| ==> IsDigit(s[i])
  }

  /** The value of a string of decimal digits. */
  function DigitsValue(s: string): nat
    requires AllDigits(s)
    decreases |s|
  {
    if s == [] then 0
    else
      var last := s[|s| - 1];
      assert IsDigit(last);
      DigitsValue(s[..|s| - 1]) * 10 + (last as int - '0' as int)
  }

  /** The digits of a decimal integer: the string without its leading '-'. */
  function Digits(s: string): string
  {
    if |s| > 0 && s[0] == '-' then s[1..] else s
  }

  /** A decimal integer in PHP's canonical form: no sign but '-', no leading zero, no "-0". */
  predicate IsCanonicalDecimal(s: string)
  {
    && |Digits(s)| > 0
    && AllDigits(Digits(s))
    && (Digits(s)[0] == '0' ==> s == "0")
  }

  function DecimalValue(s: string): int
    requires IsCanonicalDecimal(s)
  {
    if s[0] == '-' then 0 - DigitsValue(Digits(s)) else DigitsValue(Digits(s))
  }

  /**
   * The key `$a[s]` stores under: a canonical decimal integer string within
   * PHP's integer range becomes an integer key, any other string stays a
   * string key.
   */
  function ArrayKey(s: string): (k: Key)
    ensures k.StrKey? ==> k.s == s
    ensures k.IntKey? ==> IsCanonicalDecimal(s) && k.n == DecimalValue(s) && PHP_INT_MIN <= k.n <= PHP_INT_MAX
    ensures IsCanonicalDecimal(s) && PHP_INT_MIN <= DecimalValue(s) <= PHP_INT_MAX ==> k == IntKey(DecimalValue(s))
  {
    if IsCanonicalDecimal(s) && PHP_INT_MIN <= DecimalValue(s) <= PHP_INT_MAX
    then IntKey(DecimalValue(s))
    else StrKey(s)
  }

  /** Offsets as PHP reads them: "5" and "-3" are integer keys; "05", "-0" and "+5" stay strings. */
  lemma ArrayKeyExamples()
    ensures ArrayKey("5") == IntKey(5)
    ensures ArrayKey("-3") == IntKey(-3)
    ensures ArrayKey("05") == StrKey("05")
    ensures ArrayKey("-0") == StrKey("-0")
    ensures ArrayKey("+5") == StrKey("+5")
  {
    assert DigitsValue("5") == 5 by {
      assert "5"[..0] == [];
    }
    assert Digits("-3") == "3";
    assert DigitsValue("3") == 3 by {
      assert "3"[..0] == [];
    }
  }
}
