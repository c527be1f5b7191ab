/** The required-text check that the match and the player services both apply
    (`validarTexto`): the value must be present and must not be empty once
    `String.prototype.trim` has removed the surrounding white space. */
module Texto {
  import opened Common

  /** The characters `trim` removes: the ECMAScript WhiteSpace and
      LineTerminator code points. */
  predicate IsWhiteSpace(c: char)
  {
    || c == '\t' || c == '\n' || c == '\U{000B}' || c == '\U{000C}' || c == '\r'
    || c == ' ' || c == '\U{00A0}' || c == '\U{1680}'
    || ('\U{2000}' <= c <= '\U{200A}')
    || c == '\U{2028}' || c == '\U{2029}' || c == '\U{202F}' || c == '\U{205F}'
    || c == '\U{3000}' || c == '\U{FEFF}'
  }

  /** Every character of `s` is white space (the empty string included). */
  predicate Blank(s: string)
  {
    forall i :: 0 <= i < |s| ==> IsWhiteSpace(s[i])
  }

  /** Drops the leading white space: the result is a suffix of `s`, all that
      was dropped is white space, and the result does not start with any. */
  function TrimStart(s: string): (r: string)
    ensures |r| <= |s| && r == s[|s| - |r|..]
    ensures forall i :: 0 <= i < |s| - |r| ==> IsWhiteSpace(s[i])
    ensures r != [] ==> !IsWhiteSpace(r[0])
  {
    if s != [] && IsWhiteSpace(s[0]) then TrimStart(s[1..]) else s
  }

  /** Drops the trailing white space: the result is a prefix of `s`, all that
      was dropped is white space, and the result does not end with any. */
  function TrimEnd(s: string): (r: string)
    ensures |r| <= |s| && r == s[..|r|]
    ensures forall i :: |r| <= i < |s| ==> IsWhiteSpace(s[i])
    ensures r != [] ==> !IsWhiteSpace(r[|r| - 1])
  {
    if s != [] && IsWhiteSpace(s[|s| - 1]) then TrimEnd(s[..|s| - 1]) else s
  }

  /** `String.prototype.trim`. */
  function Trim(s: string): (r: string)
    ensures r != [] ==> !IsWhiteSpace(r[0]) && !IsWhiteSpace(r[|r| - 1])
  {
    TrimEnd(TrimStart(s))
  }

  /** `trim()` leaves nothing exactly when the string is all white space. */
  lemma TrimEmptyIffBlank(s: string)
    ensures Trim(s) == [] <==> Blank(s)
  {
    var t := TrimStart(s);
    if Blank(s) {
      assert |t| > 0 ==> s[|s| - |t|..][0] == t[0];
    }
    assert Trim(s) == [] ==> t == [];
  }

  /** A text field passes the check: it was sent, with a value that is not
      all white space. */
  predicate TextoValido(valor: Field<string>)
  {
    valor.Value? && !Blank(valor.v)
  }

  /** The error the check raises for the field named `campo`. */
  function CampoObligatorio(campo: string): Failure
  {
    BadRequest("El campo " + campo + " es obligatorio")
  }

  /** `validarTexto(valor, campo)`: rejects a missing, null, empty or
      white-space-only value with BadRequest and accepts anything else. */
  function ValidarTexto(valor: Field<string>, campo: string): (r: Option<Failure>)
    ensures r.None? <==> TextoValido(valor)
    ensures r.Some? ==> r.value == CampoObligatorio(campo)
  {
    if !TruthyString(valor) then Some(CampoObligatorio(campo))
    else
      TrimEmptyIffBlank(valor.v);
      if |Trim(valor.v)| == 0 then Some(CampoObligatorio(campo)) else None
  }
}
