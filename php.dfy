/**
 * The few PHP language semantics the extension relies on: truthiness of a
 * string, `isset` on an array entry, the array `+` operator on lists, and
 * `implode`.  A PHP list is a `seq` whose keys are the indices 0..n-1.
 */
module Php {
  import opened Wrappers

  /** PHP truthiness of a string: "" and "0" are false, every other string is true. */
  predicate Truthy(s: string) {
    s != "" && s != "0"
  }

  /** `isset($a[$k])`: the key is present and its value is not null. */
  predicate IsSet(a: map<string, Option<string>>, k: string) {
    k in a && a[k].Some?
  }

  /** `isset($a[$k]) ? $a[$k] : ""` */
  function ValueOrEmpty(a: map<string, Option<string>>, k: string): (v: string)
    ensures IsSet(a, k) ==> v == a[k].value
    ensures !IsSet(a, k) ==> v == ""
  {
    if IsSet(a, k) then a[k].value else ""
  }

  /** A list seen as a PHP array: keys 0..n-1 mapped to the entries. */
  function Keyed<T>(s: seq<T>): (m: map<int, T>)
    ensures forall i :: i in m <==> 0 <= i < |s|
    ensures forall i :: 0 <= i < |s| ==> m[i] == s[i]
  {
    map i | 0 <= i < |s| :: s[i]
  }

  /**
   * The array `+` operator as PHP defines it on arrays: every key of either
   * operand, and on a key both have, the left operand's value.
   */
  function KeyUnion<T>(left: map<int, T>, right: map<int, T>): map<int, T> {
    map k | k in left.Keys + right.Keys :: if k in left then left[k] else right[k]
  }

  /**
   * `$left + $right` on two lists: the left list unchanged, then the entries
   * of the right list whose index is past the end of the left list.
   */
  function ListUnion<T>(left: seq<T>, right: seq<T>): (r: seq<T>)
    ensures |r| == if |left| < |right| then |right| else |left|
    ensures r[..|left|] == left
    ensures forall i :: |left| <= i < |r| ==> r[i] == right[i]
  {
    if |right| <= |left| then left else left + right[|left|..]
  }

  /**
   * The list union agrees with PHP's key-based union of the two arrays, key
   * by key.  A map has no order; the order `implode` walks (left entries
   * first, then the extra right entries) is fixed by `ListUnion`'s own
   * postconditions.
   */
  lemma ListUnionIsKeyUnion<T>(left: seq<T>, right: seq<T>)
    ensures Keyed(ListUnion(left, right)) == KeyUnion(Keyed(left), Keyed(right))
  {
  }

  /** `implode($glue, $pieces)` for a one-character glue. */
  function Implode(glue: char, pieces: seq<string>): string {
    if pieces == [] then ""
    else if |pieces| == 1 then pieces[0]
    else pieces[0] + [glue] + Implode(glue, pieces[1..])
  }

  /** `explode($delimiter, $s)` for a one-character delimiter: the pieces between delimiters. */
  function Explode(delimiter: char, s: string): (pieces: seq<string>)
    ensures |pieces| > 0
  {
    if s == [] then [""]
    else
      var rest := Explode(delimiter, s[1..]);
      if s[0] == delimiter then [""] + rest
      else [[s[0]] + rest[0]] + rest[1..]
  }

  /** A prefix free of the delimiter joins the first piece of what follows it. */
  lemma {:induction false} ExplodeAfterPlainPrefix(delimiter: char, a: string, t: string)
    requires delimiter !in a
    ensures Explode(delimiter, a + t) == [a + Explode(delimiter, t)[0]] + Explode(delimiter, t)[1..]
  {
    var e := Explode(delimiter, t);
    if a == [] {
      assert a + t == t;
      assert a + e[0] == e[0];
      assert [e[0]] + e[1..] == e;
    } else {
      assert (a + t)[0] == a[0];
      assert (a + t)[1..] == a[1..] + t;
      ExplodeAfterPlainPrefix(delimiter, a[1..], t);
      assert [a[0]] + (a[1..] + e[0]) == a + e[0];
    }
  }

  /**
   * Round trip: when no piece contains the glue, exploding the imploded
   * string gives the pieces back, in order.
   */
  lemma {:induction false} ExplodeImplode(glue: char, pieces: seq<string>)
    requires |pieces| > 0
    requires forall i :: 0 <= i < |pieces| ==> glue !in pieces[i]
    ensures Explode(glue, Implode(glue, pieces)) == pieces
  {
    if |pieces| == 1 {
      ExplodeAfterPlainPrefix(glue, pieces[0], []);
      assert pieces[0] + [] == pieces[0];
    } else {
      var tail := Implode(glue, pieces[1..]);
      ExplodeImplode(glue, pieces[1..]);
      var t := [glue] + tail;
      assert t[0] == glue && t[1..] == tail;
      assert Explode(glue, t) == [""] + pieces[1..];
      ExplodeAfterPlainPrefix(glue, pieces[0], t);
      assert pieces[0] + [glue] + tail == pieces[0] + t;
      assert pieces[0] + "" == pieces[0];
      assert [pieces[0]] + pieces[1..] == pieces;
    }
  }
}
