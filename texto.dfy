/** String helpers shared by the backend and the frontend: Python's
    `str.strip()` and JavaScript's `String.prototype.trim()`, the forbidden
    name characters, substring search, ASCII case folding and the decimal
    rendering and parsing of ids (`String(n)` and `Number(s)`). */
module Texto {
  import opened Comun

  /** The characters for which Python's `str.isspace()` is true. */
  predicate EspacioPython(c: char) {
    || ('\t' <= c <= '\r')
    || ('\U{1C}' <= c <= '\U{1F}')
    || c == ' ' || c == '\U{85}' || c == '\U{A0}' || c == '\U{1680}'
    || ('\U{2000}' <= c <= '\U{200A}')
    || c == '\U{2028}' || c == '\U{2029}' || c == '\U{202F}' || c == '\U{205F}' || c == '\U{3000}'
  }

  /** The characters JavaScript's `trim()` removes: WhiteSpace and LineTerminator. */
  predicate EspacioJs(c: char) {
    || c == '\t' || c == '\n' || c == '\U{B}' || c == '\U{C}' || c == '\r'
    || c == ' ' || c == '\U{A0}' || c == '\U{1680}'
    || ('\U{2000}' <= c <= '\U{200A}')
    || c == '\U{2028}' || c == '\U{2029}' || c == '\U{202F}' || c == '\U{205F}' || c == '\U{3000}'
    || c == '\U{FEFF}'
  }

  /** Index of the first character that is not a space. */
  function Inicio(s: string, esp: char -> bool): (i: nat)
    ensures i <= |s|
    ensures forall k :: 0 <= k < i ==> esp(s[k])
    ensures i < |s| ==> !esp(s[i])
  {
    if |s| > 0 && esp(s[0]) then 1 + Inicio(s[1..], esp) else 0
  }

  /** One past the index of the last character that is not a space. */
  function Fin(s: string, esp: char -> bool): (j: nat)
    ensures j <= |s|
    ensures forall k :: j <= k < |s| ==> esp(s[k])
    ensures j > 0 ==> !esp(s[j - 1])
  {
    if |s| > 0 && esp(s[|s| - 1]) then Fin(s[..|s| - 1], esp) else |s|
  }

  /** `s` without its leading and trailing spaces. */
  function Recortar(s: string, esp: char -> bool): (r: string)
    ensures |r| <= |s|
    ensures r == [] <==> forall k :: 0 <= k < |s| ==> esp(s[k])
    ensures r != [] ==> !esp(r[0]) && !esp(r[|r| - 1])
    ensures r != [] ==> r == s[Inicio(s, esp)..Fin(s, esp)]
    ensures forall k :: 0 <= k < |r| ==> r[k] in s
  {
    var i, j := Inicio(s, esp), Fin(s, esp);
    if i < j then
      assert forall k :: 0 <= k < j - i ==> s[i..j][k] == s[i + k];
      s[i..j]
    else
      // Past `Fin` every character is a space, so `Inicio` reaches the end.
      assert i == |s| by { if i < |s| { assert false; } }
      []
  }

  lemma RecortarIdempotente(s: string, esp: char -> bool)
    ensures Recortar(Recortar(s, esp), esp) == Recortar(s, esp)
  {
    var r := Recortar(s, esp);
    if r != [] {
      assert Inicio(r, esp) == 0;
      assert Fin(r, esp) == |r|;
    }
  }

  /** Python `value.strip()`. */
  function StripPy(s: string): string { Recortar(s, EspacioPython) }

  /** JavaScript `s.trim()`. */
  function TrimJs(s: string): string { Recortar(s, EspacioJs) }

  /** The characters that names must not contain. */
  predicate Prohibido(c: char) {
    c == '<' || c == '>' || c == '{' || c == '}' || c == ';'
  }

  /** `any(c in value for c in ["<", ">", "{", "}", ";"])`. */
  predicate ContieneProhibido(s: string) {
    exists k :: 0 <= k < |s| && Prohibido(s[k])
  }

  /** No forbidden character is a space, so stripping never adds or removes one. */
  lemma {:induction false} ProhibidoTrasRecortar(s: string, esp: char -> bool)
    requires forall c :: Prohibido(c) ==> !esp(c)
    ensures ContieneProhibido(Recortar(s, esp)) <==> ContieneProhibido(s)
  {
    var r := Recortar(s, esp);
    if ContieneProhibido(s) {
      var k :| 0 <= k < |s| && Prohibido(s[k]);
      var i, j := Inicio(s, esp), Fin(s, esp);
      assert i <= k < j;
      assert r == s[i..j];
      assert r[k - i] == s[k];
    }
    if ContieneProhibido(r) {
      var k :| 0 <= k < |r| && Prohibido(r[k]);
      assert r[k] in s;
    }
  }

  /** `sub` is a prefix of `s`. */
  predicate EmpiezaCon(s: string, sub: string) {
    |sub| <= |s| && s[..|sub|] == sub
  }

  /** JavaScript `s.includes(sub)`. */
  predicate Contiene(s: string, sub: string)
    decreases |s|
  {
    EmpiezaCon(s, sub) || (|s| > 0 && Contiene(s[1..], sub))
  }

  lemma {:induction false} ContieneEn(s: string, sub: string, i: nat)
    requires i + |sub| <= |s| && s[i..i + |sub|] == sub
    ensures Contiene(s, sub)
    decreases i
  {
    if i == 0 {
      assert s[..|sub|] == s[0..|sub|];
    } else {
      assert s[1..][i - 1..i - 1 + |sub|] == s[i..i + |sub|];
      ContieneEn(s[1..], sub, i - 1);
    }
  }

  /** ASCII lower case, the folding used for case-insensitive comparisons. */
  function MinusculaAscii(c: char): char {
    if 'A' <= c <= 'Z' then (c as int + 32) as char else c
  }

  function Minusculas(s: string): (r: string)
    ensures |r| == |s|
    ensures forall k :: 0 <= k < |s| ==> r[k] == MinusculaAscii(s[k])
  {
    if s == [] then [] else [MinusculaAscii(s[0])] + Minusculas(s[1..])
  }

  /** Django's `__iexact` comparison. */
  predicate IgualSinMayusculas(a: string, b: string) {
    Minusculas(a) == Minusculas(b)
  }

  predicate EsDigito(c: char) { '0' <= c <= '9' }

  /** A non-empty string of decimal digits. */
  predicate EsDecimal(s: string) {
    |s| > 0 && forall k :: 0 <= k < |s| ==> EsDigito(s[k])
  }

  function Digito(d: nat): (c: char)
    requires d < 10
    ensures EsDigito(c) && c as int - '0' as int == d
  {
    ('0' as int + d) as char
  }

  /** The value of a string of decimal digits, read left to right. */
  function ValorDecimal(s: string): nat
    requires forall k :: 0 <= k < |s| ==> EsDigito(s[k])
  {
    if s == [] then 0
    else
      assert EsDigito(s[|s| - 1]);
      10 * ValorDecimal(s[..|s| - 1]) + (s[|s| - 1] as int - '0' as int)
  }

  /** JavaScript `String(n)` for a non-negative integer. */
  function Decimal(n: nat): (s: string)
    ensures EsDecimal(s)
    ensures s[0] == '0' <==> n == 0
    ensures n == 0 ==> s == "0"
  {
    if n < 10 then [Digito(n)] else Decimal(n / 10) + [Digito(n % 10)]
  }

  /** JavaScript `Number(s)` on the strings the pages produce: a string of
      decimal digits gives its value, anything else gives `NaN` (None). */
  function Numero(s: string): Option<nat> {
    if EsDecimal(s) then Some(ValorDecimal(s)) else None
  }

  /** Rendering an id and parsing it back gives the id. */
  lemma {:induction false} NumeroDeDecimal(n: nat)
    ensures Numero(Decimal(n)) == Some(n)
  {
    var s := Decimal(n);
    if n >= 10 {
      NumeroDeDecimal(n / 10);
      assert s[..|s| - 1] == Decimal(n / 10);
      assert ValorDecimal(s) == 10 * (n / 10) + n % 10;
    }
  }
}
