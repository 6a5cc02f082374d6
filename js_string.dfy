/**
  The two JavaScript string operations the front-end relies on: the relational
  comparison `a < b` / `a > b` between two strings, and `String.prototype.toLowerCase`.
 */
module JsString {

  /**
    `a < b` for two JavaScript strings: compare element by element, the first
    differing element decides, and a proper prefix is smaller than the longer string.
   */
  predicate Less(a: string, b: string)
    decreases |a|
  {
    if a == [] then b != []
    else if b == [] then false
    else a[0] < b[0] || (a[0] == b[0] && Less(a[1..], b[1..]))
  }

  lemma {:induction false} LessIrreflexive(a: string)
    ensures !Less(a, a)
    decreases |a|
  {
    if a != [] {
      LessIrreflexive(a[1..]);
    }
  }

  lemma {:induction false} LessAsymmetric(a: string, b: string)
    ensures Less(a, b) ==> !Less(b, a)
    decreases |a|
  {
    if a != [] && b != [] {
      LessAsymmetric(a[1..], b[1..]);
    }
  }

  /** Any two different strings are ordered one way or the other. */
  lemma {:induction false} LessConnected(a: string, b: string)
    ensures a == b || Less(a, b) || Less(b, a)
    decreases |a|
  {
    if a != [] && b != [] && a[0] == b[0] {
      LessConnected(a[1..], b[1..]);
      if a[1..] == b[1..] {
        assert a == [a[0]] + a[1..] && b == [b[0]] + b[1..];
      }
    }
  }

  /**
    Comparing two concatenations whose first parts have the same length: the first
    parts decide, and only when they are equal do the second parts.
   */
  lemma {:induction false} LessConcat(x: string, y: string, x': string, y': string)
    requires |x| == |x'|
    ensures Less(x + y, x' + y') <==> Less(x, x') || (x == x' && Less(y, y'))
    decreases |x|
  {
    if x == [] {
      assert x + y == y && x' + y' == y';
    } else {
      assert (x + y)[1..] == x[1..] + y && (x' + y')[1..] == x'[1..] + y';
      LessConcat(x[1..], y, x'[1..], y');
      if x[0] == x'[0] && x[1..] == x'[1..] {
        assert x == [x[0]] + x[1..] && x' == [x'[0]] + x'[1..];
      }
    }
  }

  /** True of the characters `toLowerCase` maps to another character (the Latin-1 capitals). */
  predicate IsUpper(c: char)
  {
    ('A' <= c <= 'Z') || ('\U{C0}' <= c <= '\U{DE}' && c != '\U{D7}')
  }

  /** `toLowerCase` on one character of the Basic Latin and Latin-1 blocks. */
  function LowerChar(c: char): (d: char)
    ensures IsUpper(c) ==> d as int == c as int + 32
    ensures !IsUpper(c) ==> d == c
    ensures !IsUpper(d)
  {
    if IsUpper(c) then (c as int + 32) as char else c
  }

  /** `s.toLowerCase()`: every character is lowered, nothing is added or dropped. */
  function ToLower(s: string): (r: string)
    ensures |r| == |s|
    ensures forall i :: 0 <= i < |s| ==> r[i] == LowerChar(s[i])
    decreases |s|
  {
    if s == [] then [] else [LowerChar(s[0])] + ToLower(s[1..])
  }

  /** A lowered string has no capitals left, so lowering it again changes nothing. */
  lemma ToLowerIdempotent(s: string)
    ensures ToLower(ToLower(s)) == ToLower(s)
  {
    var r := ToLower(s);
    assert forall i :: 0 <= i < |r| ==> LowerChar(r[i]) == r[i];
  }
}
