/**
 * The string primitives the shop relies on, written as Python defines them on the
 * characters this model covers: `str.isdigit`, `str.lower`, `str.strip` and slicing
 * with clamped bounds.
 */
module Texto {

  /** An ASCII decimal digit. */
  predicate EhDigito(c: char) {
    '0' <= c <= '9'
  }

  /** `str.isdigit()`: the string is non-empty and every character is a digit. */
  function SoDigitos(s: string): (r: bool)
    ensures r <==> |s| > 0 && forall i :: 0 <= i < |s| ==> EhDigito(s[i])
  {
    if |s| == 0 then false
    else if |s| == 1 then EhDigito(s[0])
    else EhDigito(s[0]) && SoDigitos(s[1..])
  }

  /** The characters Python's `str.strip()` removes (those for which `str.isspace()` holds). */
  predicate EhEspaco(c: char) {
    c == ' ' || ('\t' <= c <= '\r') || ('\U{1c}' <= c <= '\U{1f}')
    || c == '\U{85}' || c == '\U{a0}' || c == '\U{1680}'
    || ('\U{2000}' <= c <= '\U{200a}') || c == '\U{2028}' || c == '\U{2029}'
    || c == '\U{202f}' || c == '\U{205f}' || c == '\U{3000}'
  }

  /** An upper-case letter that `str.lower()` maps 32 code points down: A-Z and the Latin-1 letters U+00C0 to U+00DE except U+00D7. */
  predicate EhMaiuscula(c: char) {
    ('A' <= c <= 'Z') || ('\U{c0}' <= c <= '\U{de}' && c != '\U{d7}')
  }

  /** `str.lower()` on one character. */
  function Minuscula(c: char): (r: char)
    ensures !EhMaiuscula(r)
    ensures !EhMaiuscula(c) ==> r == c
  {
    if EhMaiuscula(c) then (c as int + 32) as char else c
  }

  /** `str.lower()`: every character lowered, nothing added or removed. */
  function Minusculas(s: string): (r: string)
    ensures |r| == |s|
    ensures forall i :: 0 <= i < |s| ==> r[i] == Minuscula(s[i])
  {
    if s == [] then [] else [Minuscula(s[0])] + Minusculas(s[1..])
  }

  /** Lower-casing twice is lower-casing once. */
  lemma {:induction false} MinusculasIdempotente(s: string)
    ensures Minusculas(Minusculas(s)) == Minusculas(s)
  {
    var t := Minusculas(s);
    assert Minusculas(t) == t by {
      forall i | 0 <= i < |t| ensures Minusculas(t)[i] == t[i] {
        assert t[i] == Minuscula(s[i]);
      }
    }
  }

  /** Number of leading whitespace characters. */
  function EspacosIniciais(s: string): (n: nat)
    ensures n <= |s|
    ensures forall k :: 0 <= k < n ==> EhEspaco(s[k])
    ensures n < |s| ==> !EhEspaco(s[n])
  {
    if s == [] || !EhEspaco(s[0]) then 0 else 1 + EspacosIniciais(s[1..])
  }

  /** Length of `s` without its trailing whitespace. */
  function FimSemEspacos(s: string): (n: nat)
    ensures n <= |s|
    ensures forall k :: n <= k < |s| ==> EhEspaco(s[k])
    ensures n > 0 ==> !EhEspaco(s[n - 1])
  {
    if s == [] || !EhEspaco(s[|s| - 1]) then |s| else FimSemEspacos(s[..|s| - 1])
  }

  /** `str.strip()`: the longest slice of `s` that neither starts nor ends with whitespace. */
  function Aparar(s: string): (r: string)
    ensures EspacosIniciais(s) + |r| <= |s|
    ensures r == s[EspacosIniciais(s)..EspacosIniciais(s) + |r|]
    ensures forall k :: 0 <= k < EspacosIniciais(s) ==> EhEspaco(s[k])
    ensures forall k :: EspacosIniciais(s) + |r| <= k < |s| ==> EhEspaco(s[k])
    ensures r != [] ==> !EhEspaco(r[0]) && !EhEspaco(r[|r| - 1])
  {
    var i := EspacosIniciais(s);
    if i == |s| then [] else s[i..FimSemEspacos(s)]
  }

  /** Stripping an already stripped string changes nothing. */
  lemma ApararIdempotente(s: string)
    ensures Aparar(Aparar(s)) == Aparar(s)
  {
    var r := Aparar(s);
    if r != [] {
      assert EspacosIniciais(r) == 0;
      assert FimSemEspacos(r) == |r|;
    }
  }

  /** `s[a:b]` for non-negative bounds: Python clamps both bounds to the length. */
  function Fatia(s: string, a: nat, b: nat): (r: string)
    ensures a <= b <= |s| ==> r == s[a..b]
    ensures |r| == if a < b && a < |s| then (if b < |s| then b else |s|) - a else 0
  {
    var hi := if b < |s| then b else |s|;
    var lo := if a < hi then a else hi;
    s[lo..hi]
  }
}
