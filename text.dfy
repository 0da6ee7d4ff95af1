/** The two string operations the core relies on: JavaScript's `String.prototype.toUpperCase`
    and the regular-expression replace `/[^A-Z]/g` that keeps only the letters A to Z. */
module Text {

  predicate IsLatinUpper(c: char) {
    'A' <= c <= 'Z'
  }

  predicate IsLatinLower(c: char) {
    'a' <= c <= 'z'
  }

  predicate AllLatinUpper(s: string) {
    forall k :: 0 <= k < |s| ==> IsLatinUpper(s[k])
  }

  /** The upper-case form of one character, as `toUpperCase` computes it (full case
      mapping, so one character may become several). Every character whose upper-case
      form contains one of the letters A to Z is listed; every other character is kept as
      it is. For those others this differs from JavaScript only in characters that are not
      A to Z (é gives é here, É there), which neither caller can observe: the word cleaner
      drops them and the region table has only A-to-Z keys. */
  function UpperChar(c: char): (r: string)
    ensures |r| >= 1
    ensures forall k :: 0 <= k < |r| ==> !IsLatinLower(r[k])
    ensures IsLatinLower(c) ==> r == [(c as int - 32) as char]
    ensures c < 128 as char && !IsLatinLower(c) ==> r == [c]
  {
    if IsLatinLower(c) then [(c as int - 32) as char]
    else if c == '\U{00DF}' then "SS"            // sharp s
    else if c == '\U{0131}' then "I"             // dotless i
    else if c == '\U{017F}' then "S"             // long s
    else if c == '\U{0149}' then "\U{02BC}N"     // n preceded by apostrophe
    else if c == '\U{01F0}' then "J\U{030C}"     // j with caron
    else if c == '\U{1E96}' then "H\U{0331}"     // h with line below
    else if c == '\U{1E97}' then "T\U{0308}"     // t with diaeresis
    else if c == '\U{1E98}' then "W\U{030A}"     // w with ring above
    else if c == '\U{1E99}' then "Y\U{030A}"     // y with ring above
    else if c == '\U{1E9A}' then "A\U{02BE}"     // a with right half ring
    else if c == '\U{FB00}' then "FF"            // ligatures ff, fi, fl, ffi, ffl, st, st
    else if c == '\U{FB01}' then "FI"
    else if c == '\U{FB02}' then "FL"
    else if c == '\U{FB03}' then "FFI"
    else if c == '\U{FB04}' then "FFL"
    else if c == '\U{FB05}' then "ST"
    else if c == '\U{FB06}' then "ST"
    else [c]
  }

  /** `s.toUpperCase()`: no letter a to z is left, and a string of ASCII characters keeps
      its length. */
  function UpperCase(s: string): (r: string)
    ensures |r| >= |s|
    ensures forall k :: 0 <= k < |r| ==> !IsLatinLower(r[k])
    ensures (forall k :: 0 <= k < |s| ==> s[k] < 128 as char) ==> |r| == |s|
  {
    if s == [] then [] else UpperChar(s[0]) + UpperCase(s[1..])
  }

  /** `s.replace(/[^A-Z]/g, '')`: the letters A to Z of `s`, in order. */
  function KeepLatinUpper(s: string): (r: string)
    ensures |r| <= |s|
    ensures AllLatinUpper(r)
  {
    if s == [] then []
    else (if IsLatinUpper(s[0]) then [s[0]] else []) + KeepLatinUpper(s[1..])
  }

  lemma {:induction false} UpperCaseAppend(a: string, b: string)
    ensures UpperCase(a + b) == UpperCase(a) + UpperCase(b)
  {
    if a != [] {
      assert (a + b)[0] == a[0] && (a + b)[1..] == a[1..] + b;
      UpperCaseAppend(a[1..], b);
    } else {
      assert a + b == b;
    }
  }

  lemma {:induction false} KeepLatinUpperAppend(a: string, b: string)
    ensures KeepLatinUpper(a + b) == KeepLatinUpper(a) + KeepLatinUpper(b)
  {
    if a != [] {
      assert (a + b)[0] == a[0] && (a + b)[1..] == a[1..] + b;
      KeepLatinUpperAppend(a[1..], b);
    } else {
      assert a + b == b;
    }
  }

  /** The filter keeps exactly the characters A to Z of its input. */
  lemma {:induction false} KeepLatinUpperMembers(s: string)
    ensures forall c :: c in KeepLatinUpper(s) <==> c in s && IsLatinUpper(c)
  {
    if s != [] {
      KeepLatinUpperMembers(s[1..]);
      assert s == [s[0]] + s[1..];
    }
  }

  /** Upper-casing does not change a string of letters A to Z. */
  lemma {:induction false} UpperCaseOfLatinUpper(s: string)
    requires AllLatinUpper(s)
    ensures UpperCase(s) == s
  {
    if s != [] {
      UpperCaseOfLatinUpper(s[1..]);
    }
  }

  /** Filtering does not change a string of letters A to Z. */
  lemma {:induction false} KeepLatinUpperOfLatinUpper(s: string)
    requires AllLatinUpper(s)
    ensures KeepLatinUpper(s) == s
  {
    if s != [] {
      KeepLatinUpperOfLatinUpper(s[1..]);
    }
  }

  /** Upper-casing twice is upper-casing once, so a lookup on the upper-cased string does
      not depend on the letter case of its input. */
  lemma {:induction false} UpperCaseIdempotent(s: string)
    ensures UpperCase(UpperCase(s)) == UpperCase(s)
  {
    if s != [] {
      var head := UpperChar(s[0]);
      UpperCaseAppend(head, UpperCase(s[1..]));
      UpperCharStable(s[0]);
      UpperCaseIdempotent(s[1..]);
    }
  }

  lemma UpperCharStable(c: char)
    ensures UpperCase(UpperChar(c)) == UpperChar(c)
  {
    var r := UpperChar(c);
    if |r| == 1 {
      assert UpperCase(r) == UpperChar(r[0]) + UpperCase([]);
    } else {
      assert r[1..][1..] == r[2..];
      assert UpperCase(r) == UpperChar(r[0]) + UpperCase(r[1..]);
      assert UpperCase(r[1..]) == UpperChar(r[1]) + UpperCase(r[2..]);
      if |r| == 3 {
        assert r[2..][1..] == [];
        assert UpperCase(r[2..]) == UpperChar(r[2]) + UpperCase([]);
      }
    }
  }
}
