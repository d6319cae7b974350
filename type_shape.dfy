/** `get_inner_type`: recognising `Option<T>` and taking out `T`. */
module TypeShape {
  import opened Basics
  import opened Syntax

  const OptionIdent := "Option"

  /** The inner type of an `Option<T>` type, or `None`. Only the first path segment is
      inspected, and only its first angle-bracketed argument. */
  function InnerType(ty: TypeExpr): Option<TypeExpr> {
    match ty
    case PathType(segments) =>
      if |segments| > 0 && segments[0].ident == OptionIdent then
        match segments[0].arguments
        case AngleBracketed(args) =>
          if |args| > 0 && args[0].TypeArg? then Some(args[0].ty) else None
        case _ => None
      else None
    case OtherType(_) => None
  }

  /** The type `Option<t, more...>` followed by further segments `rest`. */
  function OptionType(t: TypeExpr, more: seq<GenericArgument>, rest: seq<PathSegment>): (ty: TypeExpr)
    ensures ty.PathType? && |ty.segments| == 1 + |rest|
  {
    PathType([PathSegment(OptionIdent, AngleBracketed([TypeArg(t)] + more))] + rest)
  }

  /** Every type of the shape `Option<t, ...>...` yields `t`, and only those do. */
  lemma InnerTypeIff(ty: TypeExpr, t: TypeExpr)
    ensures InnerType(ty) == Some(t) <==> exists more, rest :: ty == OptionType(t, more, rest)
  {
    if InnerType(ty) == Some(t) {
      var seg := ty.segments[0];
      var more, rest := seg.arguments.args[1..], ty.segments[1..];
      assert seg.arguments.args == [TypeArg(t)] + more;
      assert ty.segments == [seg] + rest;
      assert ty == OptionType(t, more, rest);
    }
    if exists more, rest :: ty == OptionType(t, more, rest) {
      var more, rest :| ty == OptionType(t, more, rest);
      assert ty.segments[0] == PathSegment(OptionIdent, AngleBracketed([TypeArg(t)] + more));
    }
  }

  /** Round trip: wrapping a type in `Option<..>` and asking for the inner type gives it back. */
  lemma InnerTypeOfOption(t: TypeExpr)
    ensures InnerType(PathType([PathSegment(OptionIdent, AngleBracketed([TypeArg(t)]))])) == Some(t)
  {
  }

  /** Shapes that are rejected: a lifetime argument, a qualified path, a bare `Option`,
      parenthesised arguments and non-path types. `Option<Option<u32>>` is not unwrapped twice. */
  lemma InnerTypeRejections(t: TypeExpr)
    ensures InnerType(PathType([PathSegment(OptionIdent, AngleBracketed([LifetimeArg("a")]))])) == None
    ensures InnerType(PathType([PathSegment("std", NoArguments), PathSegment("option", NoArguments),
                                PathSegment(OptionIdent, AngleBracketed([TypeArg(t)]))])) == None
    ensures InnerType(PathType([PathSegment(OptionIdent, NoArguments)])) == None
    ensures InnerType(PathType([PathSegment(OptionIdent, Parenthesized([t]))])) == None
    ensures InnerType(PathType([PathSegment(OptionIdent, AngleBracketed([]))])) == None
    ensures InnerType(OtherType("&'a str")) == None
    ensures InnerType(OptionType(OptionType(t, [], []), [], [])) == Some(OptionType(t, [], []))
  {
  }
}
