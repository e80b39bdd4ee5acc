/** The two string normalisations the ledger relies on: Java's `String.trim`
    (which strips every leading and trailing character whose code is at most
    U+0020) and `String.toUpperCase` (modelled for the ASCII and Latin-1
    letters, in a locale without special casing rules). */
module Texto {
  import opened Comun

  /** The characters `String.trim` removes. */
  predicate EsEspacio(c: char) {
    c <= ' '
  }

  /** How many leading characters `trim` removes. */
  function Inicio(s: string): (k: nat)
    ensures k <= |s|
    ensures forall i :: 0 <= i < k ==> EsEspacio(s[i])
    ensures k < |s| ==> !EsEspacio(s[k])
  {
    if s == [] || !EsEspacio(s[0]) then 0 else 1 + Inicio(s[1..])
  }

  /** Where the part `trim` keeps ends, for a string whose kept part starts at
      `desde`: every later character is removable, and the last kept one is not. */
  function Final(s: string, desde: nat): (k: nat)
    requires desde <= |s|
    ensures desde <= k <= |s|
    ensures forall i :: k <= i < |s| ==> EsEspacio(s[i])
    ensures desde < k ==> !EsEspacio(s[k - 1])
  {
    if |s| == desde || !EsEspacio(s[|s| - 1]) then |s| else Final(s[..|s| - 1], desde)
  }

  /** Java's `s.trim()`. */
  function Recortar(s: string): (r: string)
    ensures |r| <= |s|
    ensures r == [] <==> forall i :: 0 <= i < |s| ==> EsEspacio(s[i])
    ensures r != [] ==> !EsEspacio(r[0]) && !EsEspacio(r[|r| - 1])
    ensures exists a, b :: 0 <= a <= b <= |s| && r == s[a..b] &&
              (forall i :: 0 <= i < a ==> EsEspacio(s[i])) && (forall i :: b <= i < |s| ==> EsEspacio(s[i]))
  {
    var desde := Inicio(s);
    var hasta := Final(s, desde);
    assert 0 <= desde <= hasta <= |s| && s[desde..hasta] == s[desde..hasta];
    s[desde..hasta]
  }

  /** The string has no character `trim` would remove at either end. */
  predicate SinBordes(s: string) {
    s == [] || (!EsEspacio(s[0]) && !EsEspacio(s[|s| - 1]))
  }

  /** `trim` leaves a string without removable ends unchanged. */
  lemma RecortarSinBordes(s: string)
    requires SinBordes(s)
    ensures Recortar(s) == s
  {
  }

  /** `trim` is idempotent. */
  lemma RecortarIdempotente(s: string)
    ensures Recortar(Recortar(s)) == Recortar(s)
  {
    RecortarSinBordes(Recortar(s));
  }

  /** The Java test `s == null || s.trim().isEmpty()`. */
  predicate EnBlanco(s: Option<string>) {
    s.None? || Recortar(s.value) == []
  }

  /** `Character.toUpperCase` on the letters the model covers: a-z, the Latin-1
      lower-case letters U+00E0..U+00FE except the division sign U+00F7,
      U+00FF (y with diaeresis) which maps to U+0178, and the micro sign U+00B5
      which maps to the Greek capital mu U+039C. Every other character is left
      unchanged. */
  function MayusculaDe(c: char): (r: char)
    ensures EsEspacio(r) <==> EsEspacio(c)
  {
    if 'a' <= c <= 'z' then (c as int - 32) as char
    else if 0xE0 <= c as int <= 0xFE && c as int != 0xF7 then (c as int - 32) as char
    else if c as int == 0xFF then 0x178 as char
    else if c as int == 0xB5 then 0x39C as char
    else c
  }

  /** An upper-case letter is its own upper case. */
  lemma MayusculaDeIdempotente(c: char)
    ensures MayusculaDe(MayusculaDe(c)) == MayusculaDe(c)
  {
  }

  /** Java's `s.toUpperCase()`, character by character. */
  function Mayusculas(s: string): (r: string)
    ensures |r| == |s|
    ensures forall i :: 0 <= i < |s| ==> r[i] == MayusculaDe(s[i])
  {
    seq(|s|, i requires 0 <= i < |s| => MayusculaDe(s[i]))
  }

  /** Every character of `s` is already upper case. */
  predicate EnMayusculas(s: string) {
    forall i :: 0 <= i < |s| ==> MayusculaDe(s[i]) == s[i]
  }

  lemma MayusculasFijas(s: string)
    requires EnMayusculas(s)
    ensures Mayusculas(s) == s
  {
  }

  /** Upper-casing twice is upper-casing once. */
  lemma MayusculasIdempotente(s: string)
    ensures EnMayusculas(Mayusculas(s))
    ensures Mayusculas(Mayusculas(s)) == Mayusculas(s)
  {
    forall i | 0 <= i < |s| ensures MayusculaDe(Mayusculas(s)[i]) == Mayusculas(s)[i] {
      MayusculaDeIdempotente(s[i]);
    }
  }

  /** The normal form of a transaction type: trimmed, then upper-cased. */
  function Normalizar(s: string): string {
    Mayusculas(Recortar(s))
  }

  /** Normalising is idempotent, and a normalised string is blank exactly when
      its input was. */
  lemma NormalizarIdempotente(s: string)
    ensures Normalizar(Normalizar(s)) == Normalizar(s)
    ensures EnBlanco(Some(Normalizar(s))) <==> EnBlanco(Some(s))
  {
    var n := Normalizar(s);
    assert SinBordes(n);
    RecortarSinBordes(n);
    MayusculasIdempotente(Recortar(s));
  }

  /** A string that is already trimmed and upper case is its own normal form. */
  lemma NormalizarFijo(s: string)
    requires SinBordes(s) && EnMayusculas(s)
    ensures Normalizar(s) == s
  {
    RecortarSinBordes(s);
    MayusculasFijas(s);
  }
}
