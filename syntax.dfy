/** The part of a parsed `DeriveInput` that the Builder derive inspects. */
module Syntax {

  const SkipKey := "skip"
  const IntoKey := "into"
  const RenameKey := "rename"
  const BuildItKey := "build_it"
  const DocKey := "doc"

  /** A literal written after `=` inside `#[build_it(...)]`. */
  datatype Lit = StrLit(text: string) | OtherLit(token: string)

  /** What follows the path of one nested meta item. */
  datatype MetaArg =
    | NoArg                    // `skip`
    | Eq(lit: Lit)             // `rename = "new_name"`
    | Parens(tokens: string)   // `rename(...)`

  /** One comma-separated item of `#[build_it(item, ...)]`. */
  datatype Meta = Meta(path: string, arg: MetaArg)

  /** An outer attribute, identified the way the macro identifies it: by its path. */
  datatype Attribute =
    | Doc(text: string)         // `/// text`, that is `#[doc = "text"]`
    | BuildIt(items: seq<Meta>) // `#[build_it(items)]`
    | PathAttr(path: string)    // any other form: `#[skip]`, `#[doc(hidden)]`, `#[build_it]`, `#[serde(..)]`

  /** The attribute's path, as `attr.path().is_ident(..)` compares it. */
  function PathOf(a: Attribute): string {
    match a
    case Doc(_) => DocKey
    case BuildIt(_) => BuildItKey
    case PathAttr(p) => p
  }

  /** The legacy bare `#[skip]` marker. */
  const BareSkip := PathAttr(SkipKey)

  /** Type syntax: a path type such as `std::option::Option<T>`, or any other type. */
  datatype TypeExpr =
    | PathType(segments: seq<PathSegment>)
    | OtherType(text: string)   // references, tuples, arrays, ...

  datatype PathSegment = PathSegment(ident: string, arguments: PathArguments)

  datatype PathArguments =
    | NoArguments
    | AngleBracketed(args: seq<GenericArgument>)
    | Parenthesized(inputs: seq<TypeExpr>)

  datatype GenericArgument =
    | TypeArg(ty: TypeExpr)
    | LifetimeArg(name: string)
    | ConstArg(expr: string)

  /** A named field; its visibility is never read and is not modelled. */
  datatype Field = Field(name: string, ty: TypeExpr, attrs: seq<Attribute>)

  datatype Fields = Named(named: seq<Field>) | Unnamed(count: nat) | Unit

  datatype Data = Struct(fields: Fields) | Enum | Union

  /** The derive input; `generics` is copied to the output as it stands. */
  datatype DeriveInput = DeriveInput(ident: string, generics: string, attrs: seq<Attribute>, data: Data)

  predicate IdentStart(c: char) {
    ('a' <= c <= 'z') || ('A' <= c <= 'Z') || c == '_'
  }

  predicate IdentContinue(c: char) {
    IdentStart(c) || ('0' <= c <= '9')
  }

  predicate AllIdentContinue(s: string) {
    s == [] || (IdentContinue(s[0]) && AllIdentContinue(s[1..]))
  }

  /** What `syn::Ident::new` accepts, restricted to ASCII. */
  predicate ValidIdent(s: string) {
    |s| > 0 && IdentStart(s[0]) && AllIdentContinue(s[1..])
  }
}
