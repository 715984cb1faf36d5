/** Java references that may be null, and how string concatenation renders them. */
module Options {

  /** A reference that is either null (`None`) or points at a value. */
  datatype Option<+T> = None | Some(value: T)

  /** The text that `"..." + s` inserts for a `String` reference `s`: the
      four letters "null" when it is null, the string itself otherwise.
      The text is "null" for exactly two references. */
  function Show(s: Option<string>): (r: string)
    ensures r == "null" <==> s == None || s == Some("null")
  {
    match s
    case None => "null"
    case Some(v) => v
  }

  /** Concatenation cannot tell a null reference from the string "null". */
  lemma ShowConflatesNull()
    ensures Show(None) == Show(Some("null"))
  {
  }

  /** Apart from that one collision, the text determines the reference. */
  lemma ShowInjective(s: Option<string>, t: Option<string>)
    ensures Show(s) == Show(t)
            <==> s == t || (s == None && t == Some("null")) || (s == Some("null") && t == None)
  {
  }
}
