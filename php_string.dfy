/**
 * The PHP string functions the commands are built from: explode and implode
 * with a one-character separator, and ucfirst. Beside them, CapAfter is a
 * reference definition, one character at a time, of "upper-case the first
 * letter of every separated part", which both underscore converters of the
 * widget command and the option-key converter of the vhost command compute.
 */
module PhpString {

  /** The character mapping of ucfirst: ASCII lower-case letters become upper case. */
  function Upper(c: char): (u: char)
    ensures 'a' <= c <= 'z' ==> 'A' <= u <= 'Z'
    ensures !('a' <= c <= 'z') ==> u == c
  {
    if 'a' <= c <= 'z' then (c as int - 32) as char else c
  }

  /** ucfirst: the first character upper-cased, the others unchanged. */
  function UcFirst(s: string): (r: string)
    ensures |r| == |s|
  {
    if s == [] then s else [Upper(s[0])] + s[1..]
  }

  /** The number of occurrences of c in s. */
  function Count(c: char, s: string): (n: nat)
    ensures n <= |s|
    ensures n == 0 <==> c !in s
  {
    if s == [] then 0 else (if s[0] == c then 1 else 0) + Count(c, s[1..])
  }

  /** s with every occurrence of c deleted. */
  function Remove(c: char, s: string): string
  {
    if s == [] then [] else (if s[0] == c then [] else [s[0]]) + Remove(c, s[1..])
  }

  /** explode(sep, s): the pieces between the separators; there is always at least one. */
  function Explode(sep: char, s: string): (parts: seq<string>)
    ensures |parts| == Count(sep, s) + 1
    ensures forall i :: 0 <= i < |parts| ==> sep !in parts[i]
  {
    if s == [] then [[]]
    else
      var rest := Explode(sep, s[1..]);
      if s[0] == sep then [[]] + rest else [[s[0]] + rest[0]] + rest[1..]
  }

  /** implode(glue, parts). */
  function Implode(glue: string, parts: seq<string>): string
  {
    if |parts| == 0 then []
    else if |parts| == 1 then parts[0]
    else parts[0] + glue + Implode(glue, parts[1..])
  }

  /** Prepending a character to the first part prepends it to the imploded string. */
  lemma ImplodeConsChar(glue: string, c: char, parts: seq<string>)
    requires |parts| >= 1
    ensures Implode(glue, [[c] + parts[0]] + parts[1..]) == [c] + Implode(glue, parts)
  {
    var q := [[c] + parts[0]] + parts[1..];
    assert q[1..] == parts[1..];
    if |parts| > 1 {
      assert [c] + parts[0] + glue + Implode(glue, parts[1..])
          == [c] + (parts[0] + glue + Implode(glue, parts[1..]));
    }
  }

  /** Imploding the exploded pieces with the same separator gives the string back. */
  lemma {:induction false} ImplodeExplode(sep: char, s: string)
    ensures Implode([sep], Explode(sep, s)) == s
    decreases |s|
  {
    if s != [] {
      var rest := Explode(sep, s[1..]);
      ImplodeExplode(sep, s[1..]);
      if s[0] == sep {
        assert ([[]] + rest)[1..] == rest;
      } else {
        ImplodeConsChar([sep], s[0], rest);
      }
    }
  }

  /** A string is its first element followed by the rest. */
  lemma ConsSplit<T>(a: seq<T>, x: seq<T>)
    requires a != []
    ensures [a[0]] + (a[1..] + x) == a + x
  {
    assert a == [a[0]] + a[1..];
  }

  /** A character other than the separator joins the first piece. */
  lemma ExplodeCons(sep: char, c: char, u: string)
    requires c != sep
    ensures Explode(sep, [c] + u) == [[c] + Explode(sep, u)[0]] + Explode(sep, u)[1..]
  {
    assert ([c] + u)[1..] == u;
  }

  /** Text free of the separator at the front of a string stays in the first piece. */
  lemma {:induction false} ExplodePrefix(sep: char, a: string, t: string)
    requires sep !in a
    ensures Explode(sep, a + t) == [a + Explode(sep, t)[0]] + Explode(sep, t)[1..]
    decreases |a|
  {
    var e := Explode(sep, t);
    if a == [] {
      assert a + t == t;
      assert a + e[0] == e[0];
      assert e == [e[0]] + e[1..];
    } else {
      var u := a[1..] + t;
      ExplodePrefix(sep, a[1..], t);
      var rest := Explode(sep, u);
      assert rest[0] == a[1..] + e[0] && rest[1..] == e[1..];
      ExplodeCons(sep, a[0], u);
      ConsSplit(a, t);
      ConsSplit(a, e[0]);
    }
  }

  /** A separator ends the first piece. */
  lemma ExplodeAfterSeparator(sep: char, a: string, t: string)
    requires sep !in a
    ensures Explode(sep, a + [sep] + t) == [a] + Explode(sep, t)
  {
    ExplodePrefix(sep, a, [sep] + t);
    assert a + [sep] + t == a + ([sep] + t);
    assert ([sep] + t)[1..] == t;
    assert a + [] == a;
  }

  /** The first piece is a prefix of the string. */
  lemma {:induction false} ExplodeFirstIsPrefix(sep: char, s: string)
    ensures |Explode(sep, s)[0]| <= |s|
    ensures s[..|Explode(sep, s)[0]|] == Explode(sep, s)[0]
    decreases |s|
  {
    if s != [] {
      ExplodeFirstIsPrefix(sep, s[1..]);
    }
  }

  /** Exploding the imploded pieces gives the pieces back, when none holds the separator. */
  lemma {:induction false} ExplodeImplode(sep: char, parts: seq<string>)
    requires |parts| >= 1
    requires forall i :: 0 <= i < |parts| ==> sep !in parts[i]
    ensures Explode(sep, Implode([sep], parts)) == parts
    decreases |parts|
  {
    if |parts| == 1 {
      ExplodePrefix(sep, parts[0], []);
      assert parts[0] + [] == parts[0];
    } else {
      ExplodeImplode(sep, parts[1..]);
      ExplodeAfterSeparator(sep, parts[0], Implode([sep], parts[1..]));
      assert parts == [parts[0]] + parts[1..];
    }
  }

  /** The parts with ucfirst applied to every part from index `from` on. */
  function UcFirstFrom(parts: seq<string>, from: nat): (r: seq<string>)
    ensures |r| == |parts|
  {
    seq(|parts|, i requires 0 <= i < |parts| => if i >= from then UcFirst(parts[i]) else parts[i])
  }

  /**
   * One character at a time: a character right after a separator (and the
   * very first one when `cap`) is upper-cased, every other one is kept; the
   * separators themselves are kept when `keepSep` and dropped otherwise.
   */
  function CapAfter(sep: char, s: string, cap: bool, keepSep: bool): (r: string)
    ensures |r| == if keepSep then |s| else |s| - Count(sep, s)
    decreases |s|
  {
    if s == [] then []
    else if s[0] == sep then (if keepSep then [sep] else []) + CapAfter(sep, s[1..], true, keepSep)
    else [if cap then Upper(s[0]) else s[0]] + CapAfter(sep, s[1..], false, keepSep)
  }

  /**
   * Exploding on a separator, applying ucfirst to the parts (all of them, or
   * all but the first) and imploding them again, with the separator or with
   * nothing, is CapAfter.
   */
  lemma {:induction false} ImplodeCapitalized(sep: char, s: string, cap: bool, keepSep: bool)
    ensures Implode(if keepSep then [sep] else [], UcFirstFrom(Explode(sep, s), if cap then 0 else 1))
         == CapAfter(sep, s, cap, keepSep)
    decreases |s|
  {
    var glue: string := if keepSep then [sep] else [];
    var from := if cap then 0 else 1;
    if s == [] {
      assert UcFirstFrom([[]], from) == [[]];
    } else if s[0] == sep {
      ImplodeCapitalized(sep, s[1..], true, keepSep);
      ImplodeAtSeparator(glue, Explode(sep, s[1..]), from);
    } else {
      ImplodeCapitalized(sep, s[1..], false, keepSep);
      ImplodeAtLetter(glue, s[0], Explode(sep, s[1..]), cap);
    }
  }

  /** The separator case of ImplodeCapitalized: an empty first part, then the rest capitalized. */
  lemma ImplodeAtSeparator(glue: string, rest: seq<string>, from: nat)
    requires |rest| >= 1 && from <= 1
    ensures Implode(glue, UcFirstFrom([[]] + rest, from)) == glue + Implode(glue, UcFirstFrom(rest, 0))
  {
    var p := UcFirstFrom([[]] + rest, from);
    var q := UcFirstFrom(rest, 0);
    assert p[0] == [];
    assert p[1..] == q by {
      forall i | 0 <= i < |q| ensures p[1..][i] == q[i] {
        assert p[1..][i] == p[i + 1];
        assert ([[]] + rest)[i + 1] == rest[i];
      }
    }
    assert Implode(glue, p) == p[0] + glue + Implode(glue, p[1..]);
  }

  /** The letter case of ImplodeCapitalized: the letter joins the first part, upper-cased when `cap`. */
  lemma ImplodeAtLetter(glue: string, x: char, rest: seq<string>, cap: bool)
    requires |rest| >= 1
    ensures Implode(glue, UcFirstFrom([[x] + rest[0]] + rest[1..], if cap then 0 else 1))
         == [if cap then Upper(x) else x] + Implode(glue, UcFirstFrom(rest, 1))
  {
    var c := if cap then Upper(x) else x;
    var q := UcFirstFrom(rest, 1);
    var p := UcFirstFrom([[x] + rest[0]] + rest[1..], if cap then 0 else 1);
    assert p[0] == [c] + q[0];
    assert p == [[c] + q[0]] + q[1..];
    ImplodeConsChar(glue, c, q);
  }

  /** Dropping the separators: none is left, since ucfirst never produces one. */
  lemma {:induction false} CapAfterDropsSeparators(sep: char, s: string, cap: bool)
    requires !('A' <= sep <= 'Z')
    ensures sep !in CapAfter(sep, s, cap, false)
    decreases |s|
  {
    if s != [] {
      CapAfterDropsSeparators(sep, s[1..], s[0] == sep);
    }
  }

  /**
   * Keeping the separators: the character at i is upper-cased exactly when
   * it follows a separator (or is the first one and `cap` holds), otherwise
   * it is the input's character.
   */
  lemma {:induction false} CapAfterKeptAt(sep: char, s: string, cap: bool, i: nat)
    requires !('a' <= sep <= 'z')
    requires i < |s|
    ensures CapAfter(sep, s, cap, true)[i]
         == if (if i == 0 then cap else s[i - 1] == sep) then Upper(s[i]) else s[i]
    decreases i
  {
    if i > 0 {
      CapAfterKeptAt(sep, s[1..], s[0] == sep, i - 1);
    }
  }

  /** Deleting the separators from the kept form gives the dropped form. */
  lemma {:induction false} CapAfterRemoveSeparators(sep: char, s: string, cap: bool)
    requires !('A' <= sep <= 'Z')
    ensures Remove(sep, CapAfter(sep, s, cap, true)) == CapAfter(sep, s, cap, false)
    decreases |s|
  {
    if s != [] {
      var next := s[0] == sep;
      CapAfterRemoveSeparators(sep, s[1..], next);
      var head := if next then sep else if cap then Upper(s[0]) else s[0];
      var kept := [head] + CapAfter(sep, s[1..], next, true);
      assert kept[1..] == CapAfter(sep, s[1..], next, true);
    }
  }

  /** Without `cap`, a character other than the separator passes through. */
  lemma CapAfterCons(sep: char, c: char, u: string, keepSep: bool)
    requires c != sep
    ensures CapAfter(sep, [c] + u, false, keepSep) == [c] + CapAfter(sep, u, false, keepSep)
  {
    assert ([c] + u)[1..] == u;
  }

  /** Without `cap`, a separator-free front part passes through unchanged. */
  lemma {:induction false} CapAfterPrefix(sep: char, a: string, b: string, keepSep: bool)
    requires sep !in a
    ensures CapAfter(sep, a + b, false, keepSep) == a + CapAfter(sep, b, false, keepSep)
    decreases |a|
  {
    if a == [] {
      assert a + b == b;
    } else {
      var u := a[1..] + b;
      CapAfterPrefix(sep, a[1..], b, keepSep);
      CapAfterCons(sep, a[0], u, keepSep);
      ConsSplit(a, b);
      ConsSplit(a, CapAfter(sep, b, false, keepSep));
    }
  }

  /**
   * array_walk with a by-reference closure that applies ucfirst, or a for
   * loop that does the same from index `from` on: the parts are rewritten
   * one at a time, in place.
   */
  method UcFirstParts(parts: seq<string>, from: nat) returns (walked: seq<string>)
    ensures walked == UcFirstFrom(parts, from)
  {
    walked := parts;
    var i := from;
    while i < |walked|
      invariant |walked| == |parts|
      invariant forall j :: 0 <= j < |parts| ==> walked[j] == if from <= j < i then UcFirst(parts[j]) else parts[j]
      decreases |walked| - i
    {
      walked := walked[i := UcFirst(walked[i])];
      i := i + 1;
    }
  }
}
