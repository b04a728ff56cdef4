/** Result and option values used in place of C NULL returns and the
    interpreter's global error indicator, plus the one kind of value the
    scripting side hands in to the setters and to rename. */
module Common {

  datatype Option<+T> = None | Some(value: T)

  datatype Result<+T, +E> = Ok(value: T) | Err(error: E)

  /** An argument coming from the scripting side: either text (a path or a
      hex string) or some other object that cannot be turned into a C string. */
  datatype PyValue = Text(text: string) | OtherObject

  /** Conversion of a path argument to a C string; `None` stands for the NULL
      the conversion helper returns when the object is not text. */
  function PathToCStr(v: PyValue): (r: Option<string>)
    ensures r.Some? <==> v.Text?
    ensures v.Text? ==> r.value == v.text
  {
    match v
    case Text(s) => Some(s)
    case OtherObject => None
  }
}
