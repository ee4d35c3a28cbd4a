/**
 * The parts of PHP's value semantics that the provisioning command relies on:
 * truthiness of optional strings, `empty()`, `strtolower`, `str_replace`,
 * integer-to-string interpolation, and arrays with string keys, which keep
 * the order in which their keys were first assigned.
 */
module Php {
  import opened Wrappers

  /** `! $s` is false exactly for null, "" and "0"; `Truthy` is its negation. */
  predicate Truthy(s: Option<string>) {
    s.Some? && s.value != "" && s.value != "0"
  }

  /** `empty($s)` on a string: "" and "0" are empty. */
  predicate IsEmpty(s: string) {
    s == "" || s == "0"
  }

  predicate IsUpper(c: char) {
    'A' <= c <= 'Z'
  }

  function LowerChar(c: char): char {
    if IsUpper(c) then (c as int + 32) as char else c
  }

  /** `strtolower`, which since PHP 8.2 folds ASCII letters only. */
  function StrToLower(s: string): (r: string)
    ensures |r| == |s|
    ensures forall i :: 0 <= i < |r| ==> !IsUpper(r[i])
    ensures forall i :: 0 <= i < |s| && !IsUpper(s[i]) ==> r[i] == s[i]
    ensures forall i :: 0 <= i < |s| && IsUpper(s[i]) ==> r[i] as int == s[i] as int + 32
  {
    seq(|s|, i requires 0 <= i < |s| => LowerChar(s[i]))
  }

  /** `str_replace($from, $to, $s)` for a one-character search and replacement. */
  function StrReplace(from: char, to: char, s: string): (r: string)
    ensures |r| == |s|
    ensures from != to ==> from !in r
    ensures forall i :: 0 <= i < |s| && s[i] != from ==> r[i] == s[i]
    ensures forall i :: 0 <= i < |s| && s[i] == from ==> r[i] == to
  {
    seq(|s|, i requires 0 <= i < |s| => if s[i] == from then to else s[i])
  }

  predicate IsDigit(c: char) {
    '0' <= c <= '9'
  }

  predicate AllDigits(s: string) {
    forall i :: 0 <= i < |s| ==> IsDigit(s[i])
  }

  function Digit(d: nat): char
    requires d < 10
  {
    ('0' as int + d) as char
  }

  function DigitValue(c: char): nat
    requires IsDigit(c)
  {
    c as int - '0' as int
  }

  /** A non-negative integer interpolated into a string: its decimal digits, without leading zeros. */
  function DecimalString(n: nat): (r: string)
    ensures |r| > 0 && AllDigits(r)
    ensures r[0] == '0' ==> n == 0
    decreases n
  {
    if n < 10 then [Digit(n)] else DecimalString(n / 10) + [Digit(n % 10)]
  }

  /** The value of a string of decimal digits (the inverse of `DecimalString`). */
  function ParseDecimal(s: string): nat
    requires AllDigits(s)
    decreases |s|
  {
    if s == [] then 0 else ParseDecimal(s[..|s| - 1]) * 10 + DigitValue(s[|s| - 1])
  }

  /** The decimal text of a number gives that number back. */
  lemma {:induction false} ParseDecimalString(n: nat)
    ensures ParseDecimal(DecimalString(n)) == n
  {
    var s := DecimalString(n);
    if n >= 10 {
      assert s[..|s| - 1] == DecimalString(n / 10);
      ParseDecimalString(n / 10);
    }
  }

  predicate NoDuplicates<T(==)>(s: seq<T>) {
    forall i, j :: 0 <= i < j < |s| ==> s[i] != s[j]
  }

  /** The position of the first occurrence of `x` in `s`. */
  function FirstIndex<T(==)>(s: seq<T>, x: T): (i: nat)
    requires x in s
    ensures i < |s| && s[i] == x && x !in s[..i]
  {
    if s[0] == x then 0
    else
      var i := FirstIndex(s[1..], x);
      assert s[1..][..i] == s[1..i + 1];
      1 + i
  }

  lemma FirstIndexUnique<T>(s: seq<T>, x: T, i: nat)
    requires i < |s| && s[i] == x && x !in s[..i]
    ensures FirstIndex(s, x) == i
  {
  }

  /**
   * The distinct elements of `s` in order of first appearance: the key order
   * of a PHP array after the keys `s` have been assigned in turn.
   */
  function Dedup<T(==)>(s: seq<T>): (r: seq<T>)
    ensures NoDuplicates(r)
    ensures forall i :: 0 <= i < |r| ==> r[i] in s
    ensures forall i :: 0 <= i < |s| ==> s[i] in r
    ensures |r| <= |s|
    decreases |s|
  {
    if s == [] then []
    else
      var front := s[..|s| - 1];
      assert s == front + [s[|s| - 1]];
      var d := Dedup(front);
      if s[|s| - 1] in d then d else d + [s[|s| - 1]]
  }

  /** Whatever `Dedup` lists occurs in the original sequence. */
  lemma InDedup<T>(s: seq<T>, x: T)
    requires x in Dedup(s)
    ensures x in s
  {
    var d := Dedup(s);
    var k :| 0 <= k < |d| && d[k] == x;
  }

  /** `Dedup` lists the distinct elements in the order in which each first appears. */
  lemma {:induction false} DedupFirstAppearance<T>(s: seq<T>, i: nat, j: nat)
    requires i < j < |Dedup(s)|
    ensures FirstIndex(s, Dedup(s)[i]) < FirstIndex(s, Dedup(s)[j])
    decreases |s|
  {
    var front := s[..|s| - 1];
    var last := s[|s| - 1];
    var d := Dedup(front);
    assert s == front + [last];
    var x := Dedup(s)[i];
    assert x == d[i] && x in front;
    var fx := FirstIndex(front, x);
    assert s[..fx] == front[..fx];
    FirstIndexUnique(s, x, fx);
    if j < |d| {
      var y := Dedup(s)[j];
      assert y == d[j] && y in front;
      var fy := FirstIndex(front, y);
      assert s[..fy] == front[..fy];
      FirstIndexUnique(s, y, fy);
      DedupFirstAppearance(front, i, j);
    } else {
      assert Dedup(s)[j] == last && last !in front;
      assert s[..|s| - 1] == front;
      FirstIndexUnique(s, last, |s| - 1);
    }
  }

  /** The first element of `s` is the first element of `Dedup(s)`. */
  lemma {:induction false} DedupHead<T>(s: seq<T>)
    requires s != []
    ensures Dedup(s) != [] && Dedup(s)[0] == s[0]
    decreases |s|
  {
    if |s| > 1 {
      var front := s[..|s| - 1];
      DedupHead(front);
      assert front[0] == s[0];
    }
  }

  /** A sequence without repetitions is its own `Dedup`. */
  lemma {:induction false} DedupOfDistinct<T>(s: seq<T>)
    requires NoDuplicates(s)
    ensures Dedup(s) == s
    decreases |s|
  {
    if s != [] {
      var front := s[..|s| - 1];
      assert NoDuplicates(front);
      DedupOfDistinct(front);
      assert s[|s| - 1] !in front;
      assert s == front + [s[|s| - 1]];
    }
  }

  /** A PHP array with string keys: its entries and the order in which its keys were first assigned. */
  datatype OrderedMap<V> = OrderedMap(keys: seq<string>, entries: map<string, V>) {

    ghost predicate Valid() {
      NoDuplicates(keys) && forall k :: k in entries <==> k in keys
    }

    /** `$a[$k] = $v`: a new key goes to the end, an existing key keeps its place. */
    function Put(k: string, v: V): (r: OrderedMap<V>)
      ensures Valid() ==> r.Valid()
      ensures r.entries == entries[k := v]
      ensures k in r.keys
    {
      if k in keys then OrderedMap(keys, entries[k := v]) else OrderedMap(keys + [k], entries[k := v])
    }
  }

  function Keys<V>(pairs: seq<(string, V)>): (ks: seq<string>)
    ensures |ks| == |pairs|
  {
    seq(|pairs|, i requires 0 <= i < |pairs| => pairs[i].0)
  }

  /**
   * The array built by the assignments `$a[k] = v` for each pair of `pairs` in
   * turn, starting from `[]`: its keys come in order of first assignment and
   * each key holds the value it was last assigned.
   */
  function Assign<V>(pairs: seq<(string, V)>): (m: OrderedMap<V>)
    ensures m.keys == Dedup(Keys(pairs))
    ensures m.entries.Keys == set k | k in m.keys
    decreases |pairs|
  {
    if pairs == [] then OrderedMap([], map[])
    else
      var front := pairs[..|pairs| - 1];
      assert Keys(pairs) == Keys(front) + [pairs[|pairs| - 1].0];
      Assign(front).Put(pairs[|pairs| - 1].0, pairs[|pairs| - 1].1)
  }

  /** One more assignment: the array for the first `i + 1` pairs is that for the first `i` with pair `i` put. */
  lemma AssignSnoc<V>(pairs: seq<(string, V)>, i: nat)
    requires i < |pairs|
    ensures Assign(pairs[..i + 1]) == Assign(pairs[..i]).Put(pairs[i].0, pairs[i].1)
  {
    assert pairs[..i + 1][..i] == pairs[..i];
  }

  /** The array built by `Assign` is well formed and holds, for each key, the value it was last assigned. */
  lemma {:induction false} AssignLastWins<V>(pairs: seq<(string, V)>, i: nat)
    requires i < |pairs|
    requires forall j :: i < j < |pairs| ==> pairs[j].0 != pairs[i].0
    ensures Assign(pairs).Valid()
    ensures pairs[i].0 in Assign(pairs).entries && Assign(pairs).entries[pairs[i].0] == pairs[i].1
    decreases |pairs|
  {
    var front := pairs[..|pairs| - 1];
    if i < |pairs| - 1 {
      AssignLastWins(front, i);
    }
  }
}
