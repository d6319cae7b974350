/** `generate_builder_method`, `generate_builder_impl` and `derive_builder`: from a struct
    declaration to the fragments of one `impl` block. */
module Builder {
  import opened Basics
  import opened Syntax
  import opened TypeShape
  import opened Attrs

  const EnumMessage := "Builder derive does not work on enums"
  const UnionMessage := "Builder derive does not work on unions"
  const UnnamedMessage := "Builder derive only works on structs with named fields"
  const OptionOnlyMessage :=
    "Builder only works on Option<T> fields. Consider using #[skip] to skip fields that should not be optional."

  /** A generated `pub fn <name>(mut self, <param>: <paramType>) -> Self` that assigns
      `self.<field> = Some(<param>)`, or `Some(<param>.into())` when `convert` is set, in which
      case the parameter is `impl Into<paramType>`. `docs` are the attributes put before it. */
  datatype Setter = Setter(docs: seq<Attribute>, name: string, param: string, field: string,
                           paramType: TypeExpr, convert: bool)

  /** What one field contributes to the `impl` block. */
  datatype Fragment =
    | Empty                                     // `quote! {}`
    | FieldError(field: string, message: string) // `compile_error!` at the field's span
    | Method(setter: Setter)

  datatype ImplBlock = ImplBlock(generics: string, selfType: string, items: seq<Fragment>)

  /** The tokens the derive returns, or the panic that aborts it. */
  datatype Expansion =
    | Nothing                      // a unit struct
    | CompileError(message: string) // an unsupported input shape
    | Generated(block: ImplBlock)
    | Panicked(panic: Panic)

  /** The field carries an attribute whose path is `skip` (`#[skip]`). */
  predicate HasSkipMarker(field: Field) {
    exists i :: 0 <= i < |field.attrs| && PathOf(field.attrs[i]) == SkipKey
  }

  /** The field is skipped, by the bare marker or by a well-formed `#[build_it(skip)]`. */
  predicate Skipped(field: Field) {
    HasSkipMarker(field) || (AttrOf(field.attrs).Ok? && AttrOf(field.attrs).value.skip)
  }

  /** The field's attributes whose path is `doc`, in their order. */
  function DocsOf(attrs: seq<Attribute>): (r: seq<Attribute>)
    ensures |r| <= |attrs|
    ensures forall i :: 0 <= i < |r| ==> PathOf(r[i]) == DocKey && r[i] in attrs
  {
    if attrs == [] then []
    else (if PathOf(attrs[0]) == DocKey then [attrs[0]] else []) + DocsOf(attrs[1..])
  }

  /** `generate_builder_method`. */
  function GenerateBuilderMethod(field: Field, global: GlobalAttr): Result<Fragment, Panic> {
    if HasSkipMarker(field) then Ok(Empty)
    else match AttrOf(field.attrs)
      case Err(p) => Err(p)
      case Ok(attr) =>
        if attr.skip then Ok(Empty)
        else
          var fnName := attr.rename.GetOr(field.name);
          if !ValidIdent(fnName) then Err(InvalidIdent(fnName))
          else match InnerType(field.ty)
            case None => Ok(FieldError(field.name, OptionOnlyMessage))
            case Some(inner) =>
              Ok(Method(Setter(DocsOf(field.attrs), fnName, field.name, field.name, inner,
                               attr.into || global.into)))
  }

  /** The fragments of all fields, in declaration order; the first panic aborts. */
  function GenerateMethods(fields: seq<Field>, global: GlobalAttr): (r: Result<seq<Fragment>, Panic>)
    ensures r.Ok? <==> forall i :: 0 <= i < |fields| ==> GenerateBuilderMethod(fields[i], global).Ok?
    ensures r.Ok? ==> (|r.value| == |fields|
      && forall i :: 0 <= i < |fields| ==> r.value[i] == GenerateBuilderMethod(fields[i], global).value)
    ensures r.Err? ==> exists i :: (0 <= i < |fields| && GenerateBuilderMethod(fields[i], global) == Err(r.error)
      && forall j :: 0 <= j < i ==> GenerateBuilderMethod(fields[j], global).Ok?)
  {
    if fields == [] then Ok([])
    else
      match GenerateBuilderMethod(fields[0], global)
      case Err(p) => Err(p)
      case Ok(f) =>
        match GenerateMethods(fields[1..], global)
        case Err(p) => Err(p)
        case Ok(rest) => Ok([f] + rest)
  }

  /** `generate_builder_impl`: one `impl` block for the struct and its generics. */
  function GenerateBuilderImpl(input: DeriveInput, global: GlobalAttr, fields: seq<Field>): Result<ImplBlock, Panic> {
    match GenerateMethods(fields, global)
    case Err(p) => Err(p)
    case Ok(items) => Ok(ImplBlock(input.generics, input.ident, items))
  }

  /** `derive_builder`: the struct attribute is parsed first, then the input shape decides. */
  function DeriveBuilder(input: DeriveInput): Expansion {
    match GlobalAttrOf(input.attrs)
    case Err(p) => Panicked(p)
    case Ok(global) =>
      match input.data
      case Enum => CompileError(EnumMessage)
      case Union => CompileError(UnionMessage)
      case Struct(Unit) => Nothing
      case Struct(Unnamed(_)) => CompileError(UnnamedMessage)
      case Struct(Named(fields)) =>
        match GenerateBuilderImpl(input, global, fields)
        case Err(p) => Panicked(p)
        case Ok(block) => Generated(block)
  }

  /** Filtering distributes over concatenation, and a single attribute is kept exactly when
      its path is `doc`: so `DocsOf` keeps every doc attribute, in order, and nothing else. */
  lemma {:induction false} DocsOfAppend(a: seq<Attribute>, b: seq<Attribute>)
    ensures DocsOf(a + b) == DocsOf(a) + DocsOf(b)
    ensures |a| == 1 ==> DocsOf(a) == (if PathOf(a[0]) == DocKey then a else [])
    decreases |a|
  {
    if a == [] {
      assert a + b == b;
    } else {
      assert (a + b)[0] == a[0] && (a + b)[1..] == a[1..] + b;
      DocsOfAppend(a[1..], b);
      var head := if PathOf(a[0]) == DocKey then [a[0]] else [];
      calc {
        DocsOf(a + b);
        head + DocsOf(a[1..] + b);
        head + (DocsOf(a[1..]) + DocsOf(b));
        (head + DocsOf(a[1..])) + DocsOf(b);
      }
    }
  }

  /** A field yields the empty fragment exactly when it is skipped, and a skipped field does
      so whatever its declared type: its type is never checked. */
  lemma SkipIffEmpty(field: Field, global: GlobalAttr, ty: TypeExpr)
    ensures GenerateBuilderMethod(field, global) == Ok(Empty) <==> Skipped(field)
    ensures Skipped(field) ==> GenerateBuilderMethod(field.(ty := ty), global) == Ok(Empty)
  {
    var other := field.(ty := ty);
    assert HasSkipMarker(other) == HasSkipMarker(field) by {
      assert other.attrs == field.attrs;
    }
  }

  /** A generated method, in terms of the field's declaration: it is named by the last
      `rename` of the field's `build_it` list, or by the field itself when there is none; its
      parameter and the field it assigns are the field's own name; it converts with `into`
      exactly when the field or the struct asks for it; its parameter type is `T` where the
      field is declared `Option<T>`; it carries the field's doc attributes. */
  lemma SetterFromField(field: Field, global: GlobalAttr, s: Setter)
    requires GenerateBuilderMethod(field, global) == Ok(Method(s))
    ensures !Skipped(field) && ValidIdent(s.name)
    ensures s.param == field.name && s.field == field.name
    ensures var items := BuildItItems(field.attrs);
      || (!Mentions(items, RenameKey) && s.name == field.name)
      || (exists i :: LastRenameAt(items, i, s.name))
    ensures s.convert <==> Mentions(BuildItItems(field.attrs), IntoKey) || global.into
    ensures exists more, rest :: field.ty == OptionType(s.paramType, more, rest)
    ensures s.docs == DocsOf(field.attrs)
  {
    AttrOfMeaning(field.attrs);
    InnerTypeIff(field.ty, s.paramType);
  }

  /** A field that is not skipped, whose directives parse and whose method name is an
      identifier, but whose type is not `Option<T>`, yields an error tied to that field; and
      that is the only way an error fragment arises. */
  lemma NonOptionFieldError(field: Field, global: GlobalAttr)
    ensures (exists n, m :: GenerateBuilderMethod(field, global) == Ok(FieldError(n, m))) <==>
      && !Skipped(field) && AttrOf(field.attrs).Ok?
      && ValidIdent(AttrOf(field.attrs).value.rename.GetOr(field.name))
      && forall t, more, rest :: field.ty != OptionType(t, more, rest)
    ensures forall n, m :: GenerateBuilderMethod(field, global) == Ok(FieldError(n, m)) ==>
      n == field.name && m == OptionOnlyMessage
  {
    if InnerType(field.ty).Some? {
      var t := InnerType(field.ty).value;
      InnerTypeIff(field.ty, t);
    } else {
      forall t, more, rest ensures field.ty != OptionType(t, more, rest) {
        InnerTypeIff(field.ty, t);
      }
    }
  }

  /** Fields are generated independently: changing one field (to one that does not panic)
      changes that field's fragment only. */
  lemma SiblingIsolation(fields: seq<Field>, j: nat, f: Field, global: GlobalAttr)
    requires j < |fields|
    requires GenerateMethods(fields, global).Ok? && GenerateBuilderMethod(f, global).Ok?
    ensures GenerateMethods(fields[j := f], global).Ok?
    ensures var before, after := GenerateMethods(fields, global).value, GenerateMethods(fields[j := f], global).value;
      && after == before[j := GenerateBuilderMethod(f, global).value]
  {
    var fields' := fields[j := f];
    assert forall i :: 0 <= i < |fields'| ==> GenerateBuilderMethod(fields'[i], global).Ok?;
  }

  /** A panic in any field aborts the whole expansion, with the panic of the first
      panicking field. */
  lemma FirstPanicAborts(input: DeriveInput, fields: seq<Field>, k: nat)
    requires input.data == Struct(Named(fields)) && GlobalAttrOf(input.attrs).Ok?
    requires k < |fields| && GenerateBuilderMethod(fields[k], GlobalAttrOf(input.attrs).value).Err?
    requires forall j :: 0 <= j < k ==> GenerateBuilderMethod(fields[j], GlobalAttrOf(input.attrs).value).Ok?
    ensures DeriveBuilder(input) == Panicked(GenerateBuilderMethod(fields[k], GlobalAttrOf(input.attrs).value).error)
  {
    var g := GlobalAttrOf(input.attrs).value;
    var r := GenerateMethods(fields, g);
    var i :| 0 <= i < |fields| && GenerateBuilderMethod(fields[i], g) == Err(r.error)
      && forall j :: 0 <= j < i ==> GenerateBuilderMethod(fields[j], g).Ok?;
    assert i == k;
  }

  /** The input shape decides the expansion: enums and unions are refused, a unit struct
      gives nothing, a tuple struct is refused, and a struct with named fields gets an `impl`
      block for its own name and generics holding one fragment per field, in order. */
  lemma DeriveShapes(input: DeriveInput)
    requires GlobalAttrOf(input.attrs).Ok?
    ensures input.data == Enum ==> DeriveBuilder(input) == CompileError(EnumMessage)
    ensures input.data == Union ==> DeriveBuilder(input) == CompileError(UnionMessage)
    ensures input.data == Struct(Unit) ==> DeriveBuilder(input) == Nothing
    ensures input.data.Struct? && input.data.fields.Unnamed? ==> DeriveBuilder(input) == CompileError(UnnamedMessage)
    ensures input.data.Struct? && input.data.fields.Named? && DeriveBuilder(input).Generated? ==>
      var b, fields := DeriveBuilder(input).block, input.data.fields.named;
      && b.selfType == input.ident && b.generics == input.generics && |b.items| == |fields|
      && forall i :: 0 <= i < |fields| ==> b.items[i] == GenerateBuilderMethod(fields[i], GlobalAttrOf(input.attrs).value).value
  {
  }

  /** A field the builder accepts as it stands: not skipped, directives well formed, an
      identifier for a method name, and an `Option<T>` type. */
  ghost predicate PlainOptionField(f: Field) {
    && !Skipped(f)
    && AttrOf(f.attrs).Ok?
    && ValidIdent(AttrOf(f.attrs).value.rename.GetOr(f.name))
    && exists t, more, rest :: f.ty == OptionType(t, more, rest)
  }

  /** For a named-field struct whose fields are all plain `Option` fields, there is one
      method per field, in declaration order, each assigning its own field. */
  lemma OneMethodPerField(input: DeriveInput, fields: seq<Field>)
    requires input.data == Struct(Named(fields)) && GlobalAttrOf(input.attrs).Ok?
    requires forall i :: 0 <= i < |fields| ==> PlainOptionField(fields[i])
    ensures DeriveBuilder(input).Generated?
    ensures var b := DeriveBuilder(input).block;
      && |b.items| == |fields|
      && forall i :: 0 <= i < |fields| ==> b.items[i].Method? && b.items[i].setter.field == fields[i].name
  {
    var g := GlobalAttrOf(input.attrs).value;
    forall i | 0 <= i < |fields|
      ensures GenerateBuilderMethod(fields[i], g).Ok? && GenerateBuilderMethod(fields[i], g).value.Method?
      ensures GenerateBuilderMethod(fields[i], g).value.setter.field == fields[i].name
    {
      var t, more, rest :| fields[i].ty == OptionType(t, more, rest);
      InnerTypeIff(fields[i].ty, t);
    }
  }
}
