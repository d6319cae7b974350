/** Option and Result values, and the ways the derive macro can abort. */
module Basics {

  datatype Option<T> = None | Some(value: T) {
    /** The wrapped value, or `default` when there is none (Rust's `unwrap_or`). */
    function GetOr(default: T): T {
      match this
      case Some(v) => v
      case None => default
    }
  }

  datatype Result<T, E> = Ok(value: T) | Err(error: E)

  /** A panic raised while the macro runs. A panicking derive macro aborts the whole
      expansion: the compiler reports the panic and no tokens are produced. */
  datatype Panic =
    | ExpectedValue            // `meta.value().expect("Expected a value")`: `rename` not followed by `=`
    | FailedToParse            // `.expect("Failed to parse build_it attribute")` on a field
    | FailedToParseGlobal      // `.expect("Failed to parse global build_it attribute")` on the struct
    | InvalidIdent(name: string) // `syn::Ident::new` given a string that is not an identifier
}
