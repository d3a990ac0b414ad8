/** Values shared by the registry and the two annotations: the optional
    arguments of JavaScript, the three error kinds, and class references. */
module Common {

  /** An optional argument or an optional metadata value (`undefined` is None). */
  datatype Option<T> = None | Some(value: T)

  /** The three errors the core throws. */
  datatype Error = DuplicateKey | UnknownKey | NotAProvider

  /** What an operation that may throw returns: its value or the error thrown. */
  datatype Result<T> = Ok(value: T) | Err(error: Error)

  /** What an operation without a value that may throw returns. */
  datatype Outcome = Pass | Fail(error: Error)

  /** The message each error is thrown with. */
  function Message(e: Error): string
  {
    match e
    case DuplicateKey => "The name you are trying to register your injectable with already exists."
    case UnknownKey => "The injectable name you are trying to inject does not exist."
    case NotAProvider => "The provided class is not a registered provider, and no name was given."
  }

  /** A class: its identity (two classes may share a name) and its own `name`. */
  datatype ClassRef = ClassRef(id: nat, name: string)

  /** JavaScript truthiness of an optional string: present and not empty. */
  predicate Truthy(s: Option<string>)
  {
    s.Some? && s.value != ""
  }

  /** An optional boolean flag; an absent one counts as false. */
  predicate Flag(b: Option<bool>)
  {
    b == Some(true)
  }
}
