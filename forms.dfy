/**
 * Local form checks shared by the login, register and administration
 * pages: "the first required field left empty" and JavaScript's
 * `String.prototype.trim`.
 */
module Forms {

  import opened Api

  /** How an awaited `login` or `register` call of the session store ends:
      it resolves with a boolean, or it throws with an error payload. */
  datatype AuthCall = Resolved(ok: bool) | Threw(detail: Detail)

  /**
   * The index of the first empty field, checked in order, or None when
   * every field is filled. Each page checks its fields one after the other
   * and stops at the first failure, so at most one field error is set.
   */
  function FirstMissing(fields: seq<string>): (r: Option<nat>)
    ensures r.Some? ==> r.value < |fields| && fields[r.value] == ""
    ensures r.Some? ==> forall j :: 0 <= j < r.value ==> fields[j] != ""
    ensures r.None? <==> forall j :: 0 <= j < |fields| ==> fields[j] != ""
  {
    if fields == [] then None
    else if fields[0] == "" then Some(0)
    else
      match FirstMissing(fields[1..])
      case None => None
      case Some(k) => Some(k + 1)
  }

  /**
   * The characters `trim` removes: the WhiteSpace and LineTerminator code
   * points of ECMAScript (section 12.2 and 12.3 of ECMAScript 2019): tab,
   * vertical tab, form feed, space, no-break space, the byte order mark,
   * the other space separators of Unicode, line feed, carriage return, the
   * line separator and the paragraph separator.
   */
  predicate IsJsWhitespace(c: char)
  {
    c == '\t' || c == '\U{000B}' || c == '\U{000C}' || c == ' ' || c == '\U{00A0}' || c == '\U{FEFF}'
    || c == '\U{1680}' || ('\U{2000}' <= c <= '\U{200A}') || c == '\U{202F}' || c == '\U{205F}' || c == '\U{3000}'
    || c == '\n' || c == '\r' || c == '\U{2028}' || c == '\U{2029}'
  }

  function TrimStart(s: string): (r: string)
    ensures |r| <= |s| && r == s[|s| - |r|..]
    ensures r != [] ==> !IsJsWhitespace(r[0])
    ensures forall i :: 0 <= i < |s| - |r| ==> IsJsWhitespace(s[i])
  {
    if s != [] && IsJsWhitespace(s[0]) then TrimStart(s[1..]) else s
  }

  function TrimEnd(s: string): (r: string)
    ensures |r| <= |s| && r == s[..|r|]
    ensures r != [] ==> !IsJsWhitespace(r[|r| - 1])
    ensures forall i :: |r| <= i < |s| ==> IsJsWhitespace(s[i])
  {
    if s != [] && IsJsWhitespace(s[|s| - 1]) then TrimEnd(s[..|s| - 1]) else s
  }

  /** `s.trim()`: leading and trailing white space removed. */
  function Trim(s: string): string
  {
    TrimEnd(TrimStart(s))
  }

  /** Empty, or made only of white space. */
  predicate Blank(s: string)
  {
    forall i :: 0 <= i < |s| ==> IsJsWhitespace(s[i])
  }

  /**
   * `!s.trim()`: a name is rejected exactly when it is empty or made only
   * of white space; otherwise the trimmed text keeps its first and last
   * non-blank characters.
   */
  lemma TrimBlank(s: string)
    ensures Trim(s) == "" <==> Blank(s)
    ensures Trim(s) != "" ==> !IsJsWhitespace(Trim(s)[0]) && !IsJsWhitespace(Trim(s)[|Trim(s)| - 1])
  {
    var t := TrimStart(s);
    if Trim(s) == "" {
      assert |t| == 0;
    } else {
      var r := Trim(s);
      assert r == t[..|r|];
      assert r[0] == t[0];
    }
  }

  /** The test `!s.trim()` as a handler performs it. */
  method IsBlankInput(s: string) returns (blank: bool)
    ensures blank <==> Blank(s)
  {
    TrimBlank(s);
    blank := Trim(s) == "";
  }
}
