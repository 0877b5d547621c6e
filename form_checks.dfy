/**
 * The validation library's field checks that both registration forms use,
 * and the messages they produce.
 */
module FormChecks {
  import opened Wrappers

  /** Issue kinds whose wording is the validation library's own, not the form's. */
  datatype IssueCode = Required | InvalidEnumValue

  /** The message shown under a field: the form's own text or the library's default. */
  datatype Message = Custom(text: string) | LibraryDefault(code: IssueCode)

  /** A required string with a minimum length. */
  function MinLength(v: Option<string>, n: nat, message: string): Option<Message> {
    if v.None? then Some(LibraryDefault(Required))
    else if |v.value| < n then Some(Custom(message))
    else None
  }

  /** A required string drawn from a closed list. */
  function OneOf(v: Option<string>, options: seq<string>): Option<Message> {
    if v.None? then Some(LibraryDefault(Required))
    else if v.value !in options then Some(LibraryDefault(InvalidEnumValue))
    else None
  }

  /** A required string with no further constraint. */
  function AnyString(v: Option<string>): Option<Message> {
    if v.None? then Some(LibraryDefault(Required)) else None
  }
}
