/**
 * The two JavaScript string operations the food search relies on:
 * `String.prototype.toLowerCase` and `String.prototype.includes`.
 */
module JsText {

  /** `true` when `c` is a letter whose lower-case form `LowerChar` changes. */
  predicate IsUpper(c: char) {
    ('A' <= c <= 'Z') || ('À' <= c <= 'Þ' && c != '×')
    || c == 'Ğ' || c == 'Ş' || c == 'İ'
  }

  /**
   * Lower-case form of one character, as `toLowerCase` produces it for the
   * letters the catalogue and Turkish queries use. `İ` (U+0130) becomes two
   * characters, `i` followed by the combining dot above U+0307.
   */
  function LowerChar(c: char): (r: string)
    ensures |r| >= 1
    ensures !IsUpper(c) ==> r == [c]
  {
    if 'A' <= c <= 'Z' || ('À' <= c <= 'Þ' && c != '×') then
      [(c as int + 32) as char]
    else if c == 'Ğ' || c == 'Ş' then
      [(c as int + 1) as char]
    else if c == 'İ' then
      "i̇"
    else
      [c]
  }

  /** `s.toLowerCase()` */
  function ToLower(s: string): (r: string)
  {
    if s == [] then [] else LowerChar(s[0]) + ToLower(s[1..])
  }

  /** No character of `s` is changed by lower-casing. */
  predicate IsLower(s: string) {
    forall k :: 0 <= k < |s| ==> !IsUpper(s[k])
  }

  lemma {:induction false} ToLowerLength(s: string)
    ensures |ToLower(s)| >= |s|
    ensures |ToLower(s)| == 0 <==> |s| == 0
  {
    if s != [] {
      ToLowerLength(s[1..]);
    }
  }

  lemma {:induction false} ToLowerAppend(a: string, b: string)
    ensures ToLower(a + b) == ToLower(a) + ToLower(b)
  {
    if a == [] {
      assert a + b == b;
    } else {
      assert (a + b)[1..] == a[1..] + b;
      ToLowerAppend(a[1..], b);
    }
  }

  /** The result of lower-casing has no upper-case letter left. */
  lemma {:induction false} ToLowerIsLower(s: string)
    ensures IsLower(ToLower(s))
  {
    if s != [] {
      ToLowerIsLower(s[1..]);
      var h := LowerChar(s[0]);
      assert IsLower(h);
      var t := ToLower(s[1..]);
      assert ToLower(s) == h + t;
      forall k | 0 <= k < |h + t| ensures !IsUpper((h + t)[k]) {
        if k < |h| { assert (h + t)[k] == h[k]; } else { assert (h + t)[k] == t[k - |h|]; }
      }
    }
  }

  /** A string with no upper-case letter is its own lower-case form. */
  lemma {:induction false} ToLowerOfLower(s: string)
    requires IsLower(s)
    ensures ToLower(s) == s
  {
    if s != [] {
      assert !IsUpper(s[0]);
      ToLowerOfLower(s[1..]);
      assert s == [s[0]] + s[1..];
    }
  }

  /** Lower-casing twice is lower-casing once. */
  lemma ToLowerIdempotent(s: string)
    ensures ToLower(ToLower(s)) == ToLower(s)
  {
    ToLowerIsLower(s);
    ToLowerOfLower(ToLower(s));
  }

  /** `t` occurs in `s` starting at index `i`. */
  ghost predicate OccursAt(s: string, t: string, i: int) {
    0 <= i && i + |t| <= |s| && s[i..i + |t|] == t
  }

  /** `t` is a contiguous part of `s`: the meaning of `s.includes(t)`. */
  ghost predicate Occurs(s: string, t: string) {
    exists i :: OccursAt(s, t, i)
  }

  /** `s.includes(t)`: try each start position from the left. */
  function Includes(s: string, t: string): (b: bool)
  {
    if |t| <= |s| && s[..|t|] == t then true
    else if s == [] then false
    else Includes(s[1..], t)
  }

  /** `Includes` decides `Occurs`, in both directions. */
  lemma {:induction false} IncludesIsOccurs(s: string, t: string)
    ensures Includes(s, t) <==> Occurs(s, t)
  {
    if |t| <= |s| && s[..|t|] == t {
      assert OccursAt(s, t, 0);
    } else if s == [] {
      assert |t| > 0;
    } else {
      IncludesIsOccurs(s[1..], t);
      if Includes(s[1..], t) {
        var i :| OccursAt(s[1..], t, i);
        assert s[1..][i..i + |t|] == s[i + 1..i + 1 + |t|];
        assert OccursAt(s, t, i + 1);
      }
      if Occurs(s, t) {
        var i :| OccursAt(s, t, i);
        assert i != 0;
        assert s[1..][i - 1..i - 1 + |t|] == s[i..i + |t|];
        assert OccursAt(s[1..], t, i - 1);
      }
    }
  }

  /** Every string includes the empty string. */
  lemma IncludesEmpty(s: string)
    ensures Includes(s, "")
  {
    assert OccursAt(s, "", 0);
    IncludesIsOccurs(s, "");
  }
}
