/**
 * The few JavaScript value semantics the scripts and the server rely on:
 * truthiness, `== null`, the number conversion of the relational operators,
 * `String(v)`, and the string methods `startsWith`, `toLowerCase` and `includes`.
 */
module Js {
  import opened Wrappers

  /** A scalar JavaScript value; arrays and objects are not modelled. Numbers are integers in this model. */
  datatype Json = Undefined | Null | Bool(b: bool) | Num(n: int) | Str(s: string)

  /** Truthiness: false, 0, the empty string, null and undefined are falsy. */
  predicate Truthy(v: Json) {
    match v
    case Undefined => false
    case Null => false
    case Bool(b) => b
    case Num(n) => n != 0
    case Str(s) => s != ""
  }

  /** Loose equality with null, which holds for null and undefined only. */
  predicate Nullish(v: Json) {
    v.Undefined? || v.Null?
  }

  /**
   * The number a relational operator compares `v` as; `None` stands for NaN,
   * against which every comparison is false.
   */
  function ToNumber(v: Json): Option<int> {
    match v
    case Undefined => None
    case Null => Some(0)
    case Bool(b) => Some(if b then 1 else 0)
    case Num(n) => Some(n)
    case Str(_) => None
  }

  /** The value compares greater than the number `limit`. */
  predicate Above(v: Json, limit: int) {
    ToNumber(v).Some? && ToNumber(v).value > limit
  }

  /** The value compares less than the number `limit`. */
  predicate Below(v: Json, limit: int) {
    ToNumber(v).Some? && ToNumber(v).value < limit
  }

  function DigitChar(d: nat): char
    requires d < 10
  {
    "0123456789"[d]
  }

  function Digits(n: nat): string
    decreases n
  {
    if n < 10 then [DigitChar(n)] else Digits(n / 10) + [DigitChar(n % 10)]
  }

  /** The decimal text of an integer, as template literals print it. */
  function Decimal(n: int): string {
    if n < 0 then "-" + Digits(-n) else Digits(n)
  }

  /** The string conversion of a value, as template literals and console output print it. */
  function Display(v: Json): string {
    match v
    case Undefined => "undefined"
    case Null => "null"
    case Bool(b) => if b then "true" else "false"
    case Num(n) => Decimal(n)
    case Str(s) => s
  }

  /** `p` is a prefix of `s`. */
  predicate StartsWith(s: string, p: string) {
    p <= s
  }

  /** `toLowerCase` on one character; only ASCII letters are folded in this model. */
  function LowerChar(c: char): char {
    if 'A' <= c <= 'Z' then (c as int + 32) as char else c
  }

  /** Lower-casing a whole string, character by character. */
  function Lower(s: string): (r: string)
    ensures |r| == |s|
    ensures forall i :: 0 <= i < |s| ==> r[i] == LowerChar(s[i])
  {
    seq(|s|, i requires 0 <= i < |s| => LowerChar(s[i]))
  }

  /** Substring search: `needle` occurs in `hay` at some position. */
  predicate Includes(hay: string, needle: string)
    decreases |hay|
  {
    needle <= hay || (hay != [] && Includes(hay[1..], needle))
  }

  /**
   * Case-insensitive substring search: both sides lower-cased, then searched.
   * A case-insensitive regular expression built from a needle made of letters
   * and digits computes the same.
   */
  predicate IncludesIgnoringCase(hay: string, needle: string) {
    Includes(Lower(hay), Lower(needle))
  }

  /** `needle` occurs in `hay` starting at position `i`. */
  predicate OccursAt(hay: string, needle: string, i: int) {
    0 <= i && i + |needle| <= |hay| && hay[i..i + |needle|] == needle
  }

  /** `Includes` is the existence of an occurrence. */
  lemma IncludesAt(hay: string, needle: string)
    ensures Includes(hay, needle) <==> exists i :: OccursAt(hay, needle, i)
  {
    if Includes(hay, needle) {
      var i := IncludedAt(hay, needle);
    }
    if exists i :: OccursAt(hay, needle, i) {
      var i :| OccursAt(hay, needle, i);
      OccurrenceIsIncluded(hay, needle, i);
    }
  }

  /** Where an included needle occurs. */
  lemma {:induction false} IncludedAt(hay: string, needle: string) returns (i: nat)
    requires Includes(hay, needle)
    ensures OccursAt(hay, needle, i)
    decreases |hay|
  {
    if needle <= hay {
      i := 0;
      assert hay[..|needle|] == needle;
    } else {
      var j := IncludedAt(hay[1..], needle);
      assert hay[1..][j..j + |needle|] == hay[j + 1..j + 1 + |needle|];
      i := j + 1;
    }
  }

  /** A needle occurring at some position is included. */
  lemma {:induction false} OccurrenceIsIncluded(hay: string, needle: string, i: nat)
    requires OccursAt(hay, needle, i)
    ensures Includes(hay, needle)
    decreases i
  {
    if i == 0 {
      assert hay[..|needle|] == needle;
    } else {
      assert hay[1..][i - 1..i - 1 + |needle|] == hay[i..i + |needle|];
      OccurrenceIsIncluded(hay[1..], needle, i - 1);
    }
  }

  /** A one-character needle occurs exactly when the character does. */
  lemma {:induction false} IncludesChar(hay: string, c: char)
    ensures Includes(hay, [c]) <==> c in hay
    decreases |hay|
  {
    if hay != [] {
      IncludesChar(hay[1..], c);
      assert hay == [hay[0]] + hay[1..];
    }
  }

  lemma LowerConcat(a: string, b: string)
    ensures Lower(a + b) == Lower(a) + Lower(b)
  {
    assert forall i :: 0 <= i < |a + b| ==> Lower(a + b)[i] == (Lower(a) + Lower(b))[i];
  }

  /** A string contains every infix of itself. */
  lemma IncludesInfix(pre: string, needle: string, post: string)
    ensures Includes(pre + needle + post, needle)
  {
    var hay := pre + needle + post;
    assert hay[|pre|..|pre| + |needle|] == needle;
    assert OccursAt(hay, needle, |pre|);
    IncludesAt(hay, needle);
  }

  /** A key that contains the name, in any letter case, matches it. */
  lemma IncludesInfixIgnoringCase(pre: string, needle: string, post: string)
    ensures IncludesIgnoringCase(pre + needle + post, needle)
  {
    LowerConcat(pre + needle, post);
    LowerConcat(pre, needle);
    IncludesInfix(Lower(pre), Lower(needle), Lower(post));
  }
}
