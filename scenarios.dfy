/** The crate's documented examples and its test structs, expanded by the model. */
module Scenarios {
  import opened Basics
  import opened Syntax
  import opened TypeShape
  import opened Attrs
  import opened Builder
  import opened Setters

  /** Values used in the examples; `&str` and `String` are both `Str`. */
  datatype Val = Str(s: string) | Num(n: int)

  /** `Into<String>` for `&str`, `Into<u32>` for `u32`: the content is unchanged. */
  function Same(v: Val): Val { v }

  function Ty(name: string): TypeExpr {
    PathType([PathSegment(name, NoArguments)])
  }

  function Opt(t: TypeExpr): TypeExpr {
    PathType([PathSegment(OptionIdent, AngleBracketed([TypeArg(t)]))])
  }

  function NamedStruct(ident: string, attrs: seq<Attribute>, fields: seq<Field>): DeriveInput {
    DeriveInput(ident, "", attrs, Struct(Named(fields)))
  }

  function Plainly(docs: seq<Attribute>, name: string, t: TypeExpr): Fragment {
    Method(Setter(docs, name, name, name, t, false))
  }

  /** Attributes that are all doc comments. */
  predicate AllDocs(attrs: seq<Attribute>) {
    forall i :: 0 <= i < |attrs| ==> attrs[i].Doc?
  }

  lemma {:induction false} DocsOfAllDocs(attrs: seq<Attribute>)
    requires AllDocs(attrs)
    ensures DocsOf(attrs) == attrs
    decreases |attrs|
  {
    if attrs != [] {
      DocsOfAllDocs(attrs[1..]);
    }
  }

  /** A field declared `Option<t>` with only doc comments gets a setter under its own name. */
  lemma DocumentedOptionField(name: string, t: TypeExpr, docs: seq<Attribute>, global: GlobalAttr)
    requires ValidIdent(name) && AllDocs(docs)
    ensures GenerateBuilderMethod(Field(name, Opt(t), docs), global)
      == Ok(Method(Setter(docs, name, name, name, t, global.into)))
  {
    DocsOfAllDocs(docs);
    var f := Field(name, Opt(t), docs);
    assert !HasSkipMarker(f) by {
      forall i | 0 <= i < |docs| ensures PathOf(docs[i]) != SkipKey { }
    }
    assert FindBuildIt(docs) == None by {
      assert forall j :: 0 <= j < |docs| ==> PathOf(docs[j]) == DocKey;
    }
  }

  /** A named-field struct whose fields yield `frags` expands to one block holding them. */
  lemma ExpandsTo(input: DeriveInput, global: GlobalAttr, frags: seq<Fragment>)
    requires GlobalAttrOf(input.attrs) == Ok(global)
    requires input.data.Struct? && input.data.fields.Named? && |frags| == |input.data.fields.named|
    requires forall i :: 0 <= i < |frags| ==> GenerateBuilderMethod(input.data.fields.named[i], global) == Ok(frags[i])
    ensures DeriveBuilder(input) == Generated(ImplBlock(input.generics, input.ident, frags))
  {
    var r := GenerateMethods(input.data.fields.named, global);
    assert r.Ok?;
    assert r.value == frags;
  }

  /** A field that is not skipped, whose directives are `attr`, whose method name is an
      identifier and whose type is `Option<t>` gets the corresponding setter. */
  lemma SetterFor(f: Field, global: GlobalAttr, attr: Attr, t: TypeExpr)
    requires !HasSkipMarker(f) && AttrOf(f.attrs) == Ok(attr) && !attr.skip
    requires ValidIdent(attr.rename.GetOr(f.name)) && InnerType(f.ty) == Some(t)
    ensures GenerateBuilderMethod(f, global)
      == Ok(Method(Setter(DocsOf(f.attrs), attr.rename.GetOr(f.name), f.name, f.name, t, attr.into || global.into)))
  {
  }

  lemma ParseOne(m: Meta)
    ensures ParseItems([m]) == ItemStep(DefaultAttr, m)
  {
    assert [m][..0] == [];
  }

  /** A field with doc comments followed by one `#[build_it(items)]`: its directives are those
      of `items`, and its docs are the doc comments. */
  lemma DirectedField(f: Field, docs: seq<Attribute>, items: seq<Meta>)
    requires AllDocs(docs) && f.attrs == docs + [BuildIt(items)]
    ensures !HasSkipMarker(f) && AttrOf(f.attrs) == ParseItems(items) && DocsOf(f.attrs) == docs
  {
    DirectedFieldNoMarker(f, docs, items);
    DirectedFieldAttr(f, docs, items);
    DirectedFieldDocs(f, docs, items);
  }

  lemma DirectedFieldNoMarker(f: Field, docs: seq<Attribute>, items: seq<Meta>)
    requires AllDocs(docs) && f.attrs == docs + [BuildIt(items)]
    ensures !HasSkipMarker(f)
  {
    forall j | 0 <= j < |f.attrs| ensures PathOf(f.attrs[j]) != SkipKey {
      if j < |docs| {
        assert f.attrs[j] == docs[j];
      } else {
        assert f.attrs[j] == BuildIt(items);
      }
    }
  }

  lemma DirectedFieldAttr(f: Field, docs: seq<Attribute>, items: seq<Meta>)
    requires AllDocs(docs) && f.attrs == docs + [BuildIt(items)]
    ensures AttrOf(f.attrs) == ParseItems(items)
  {
    assert forall j :: 0 <= j < |docs| ==> PathOf(docs[j]) == DocKey;
    assert docs + [BuildIt(items)] + [] == f.attrs;
    FirstBuildItDecides(docs, items, []);
  }

  lemma DirectedFieldDocs(f: Field, docs: seq<Attribute>, items: seq<Meta>)
    requires AllDocs(docs) && f.attrs == docs + [BuildIt(items)]
    ensures DocsOf(f.attrs) == docs
  {
    DocsOfAllDocs(docs);
    DocsOfAppend(docs, [BuildIt(items)]);
    assert DocsOf([BuildIt(items)]) == [];
    assert docs + [] == docs;
  }

  /** `docs` then `#[build_it(into)]` on an `Option<t>` field: a converting setter. */
  lemma IntoField(name: string, t: TypeExpr, docs: seq<Attribute>, global: GlobalAttr)
    requires ValidIdent(name) && AllDocs(docs)
    ensures GenerateBuilderMethod(Field(name, Opt(t), docs + [BuildIt([Meta(IntoKey, NoArg)])]), global)
      == Ok(Method(Setter(docs, name, name, name, t, true)))
  {
    var m := Meta(IntoKey, NoArg);
    var f := Field(name, Opt(t), docs + [BuildIt([m])]);
    DirectedField(f, docs, [m]);
    ParseOne(m);
    SetterFor(f, global, DefaultAttr.(into := true), t);
  }

  /** `docs` then `#[build_it(rename = "<newName>")]` on an `Option<t>` field: a setter
      called `newName` that assigns the field. */
  lemma RenamedField(name: string, newName: string, t: TypeExpr, docs: seq<Attribute>, global: GlobalAttr)
    requires ValidIdent(newName) && AllDocs(docs) && !global.into
    ensures GenerateBuilderMethod(Field(name, Opt(t), docs + [BuildIt([Meta(RenameKey, Eq(StrLit(newName)))])]), global)
      == Ok(Method(Setter(docs, newName, name, name, t, false)))
  {
    var m := Meta(RenameKey, Eq(StrLit(newName)));
    var f := Field(name, Opt(t), docs + [BuildIt([m])]);
    DirectedField(f, docs, [m]);
    ParseOne(m);
    SetterFor(f, global, DefaultAttr.(rename := Some(newName)), t);
  }

  /** `#[build_it(skip)]` on a field of any type: nothing. */
  lemma SkippedField(name: string, ty: TypeExpr, global: GlobalAttr)
    ensures GenerateBuilderMethod(Field(name, ty, [BuildIt([Meta(SkipKey, NoArg)])]), global) == Ok(Empty)
  {
    var m := Meta(SkipKey, NoArg);
    assert [] + [BuildIt([m])] == [BuildIt([m])];
    DirectedField(Field(name, ty, [BuildIt([m])]), [], [m]);
    ParseOne(m);
  }

  const StringTy := Ty("String")
  const U32Ty := Ty("u32")
  const NoGlobal := DefaultGlobalAttr
  const RenameItem := Meta(RenameKey, Eq(StrLit("new_name")))
  const SkipItem := Meta(SkipKey, NoArg)
  const IntoItem := Meta(IntoKey, NoArg)

  /** `simple_struct`: two `Option` fields give two plain setters. */
  lemma SimpleStruct()
    ensures DeriveBuilder(NamedStruct("SimpleStruct", [],
              [Field("name", Opt(StringTy), []), Field("age", Opt(U32Ty), [])]))
      == Generated(ImplBlock("", "SimpleStruct", [Plainly([], "name", StringTy), Plainly([], "age", U32Ty)]))
  {
    assert ValidIdent("name") && ValidIdent("age");
    DocumentedOptionField("name", StringTy, [], NoGlobal);
    DocumentedOptionField("age", U32Ty, [], NoGlobal);
    ExpandsTo(NamedStruct("SimpleStruct", [], [Field("name", Opt(StringTy), []), Field("age", Opt(U32Ty), [])]),
              NoGlobal, [Plainly([], "name", StringTy), Plainly([], "age", U32Ty)]);
  }

  /** `simple_struct`, continued: `.name("Alice").age(30)` on the default value fills both fields. */
  lemma SimpleStructChain()
    ensures Chain(ImplBlock("", "SimpleStruct", [Plainly([], "name", StringTy), Plainly([], "age", U32Ty)]),
              map["name" := NoneValue, "age" := NoneValue],
              [CallSite("name", Str("Alice")), CallSite("age", Num(30))], Same)
      == Some(map["name" := SomeValue(Str("Alice")), "age" := SomeValue(Num(30))])
  {
    var b := ImplBlock("", "SimpleStruct", [Plainly([], "name", StringTy), Plainly([], "age", U32Ty)]);
    var calls := [CallSite("name", Str("Alice")), CallSite("age", Num(30))];
    var v0: Instance<Val> := map["name" := NoneValue, "age" := NoneValue];
    var v1 := v0["name" := SomeValue(Str("Alice"))];
    var v2 := v1["age" := SomeValue(Num(30))];
    assert MethodNamed(b.items, "name") == Some(b.items[0].setter);
    assert MethodNamed(b.items, "age") == Some(b.items[1].setter);
    assert Call(b.items[0].setter, v0, Str("Alice"), Same) == v1;
    assert Call(b.items[1].setter, v1, Num(30), Same) == v2;
    assert calls[1..] == [CallSite("age", Num(30))] && calls[1..][1..] == [];
    assert Chain(b, v1, calls[1..], Same) == Some(v2);
    assert v2 == map["name" := SomeValue(Str("Alice")), "age" := SomeValue(Num(30))];
  }

  /** `lifetimes`: the generics are copied and `Option<&'a str>` gives `&'a str`. */
  lemma Lifetimes()
    ensures DeriveBuilder(DeriveInput("Lifetimes", "<'a>", [],
              Struct(Named([Field("name", Opt(OtherType("&'a str")), []), Field("age", Opt(U32Ty), [])]))))
      == Generated(ImplBlock("<'a>", "Lifetimes", [Plainly([], "name", OtherType("&'a str")), Plainly([], "age", U32Ty)]))
  {
    assert ValidIdent("name") && ValidIdent("age");
    DocumentedOptionField("name", OtherType("&'a str"), [], NoGlobal);
    DocumentedOptionField("age", U32Ty, [], NoGlobal);
    ExpandsTo(DeriveInput("Lifetimes", "<'a>", [],
                Struct(Named([Field("name", Opt(OtherType("&'a str")), []), Field("age", Opt(U32Ty), [])]))),
              NoGlobal, [Plainly([], "name", OtherType("&'a str")), Plainly([], "age", U32Ty)]);
  }

  const RenamedSetter := Setter([], "new_name", "name", "name", StringTy, false)

  /** `rename`: the method is `new_name` and it still assigns `name`. */
  lemma Rename()
    ensures DeriveBuilder(NamedStruct("Rename", [],
              [Field("name", Opt(StringTy), [BuildIt([RenameItem])]), Field("age", Opt(U32Ty), [])]))
      == Generated(ImplBlock("", "Rename", [Method(RenamedSetter), Plainly([], "age", U32Ty)]))
  {
    assert ValidIdent("new_name") && ValidIdent("age");
    assert [] + [BuildIt([RenameItem])] == [BuildIt([RenameItem])];
    RenamedField("name", "new_name", StringTy, [], NoGlobal);
    DocumentedOptionField("age", U32Ty, [], NoGlobal);
    ExpandsTo(NamedStruct("Rename", [], [Field("name", Opt(StringTy), [BuildIt([RenameItem])]), Field("age", Opt(U32Ty), [])]),
              NoGlobal, [Method(RenamedSetter), Plainly([], "age", U32Ty)]);
  }

  /** `rename`, continued: no method is called `name`. */
  lemma RenameHidesFieldName()
    ensures MethodNamed([Method(RenamedSetter), Plainly([], "age", U32Ty)], "name") == None
  {
  }

  /** `skip_fields`: both skip forms give no method for a `String` field. */
  lemma SkipFields()
    ensures DeriveBuilder(NamedStruct("SkipFields", [],
              [Field("name", StringTy, [BareSkip]), Field("test", StringTy, [BuildIt([SkipItem])]), Field("age", Opt(U32Ty), [])]))
      == Generated(ImplBlock("", "SkipFields", [Empty, Empty, Plainly([], "age", U32Ty)]))
  {
    var f0 := Field("name", StringTy, [BareSkip]);
    assert GenerateBuilderMethod(f0, NoGlobal) == Ok(Empty) by {
      assert PathOf(f0.attrs[0]) == SkipKey;
    }
    SkippedField("test", StringTy, NoGlobal);
    assert ValidIdent("age");
    DocumentedOptionField("age", U32Ty, [], NoGlobal);
    ExpandsTo(NamedStruct("SkipFields", [], [f0, Field("test", StringTy, [BuildIt([SkipItem])]), Field("age", Opt(U32Ty), [])]),
              NoGlobal, [Empty, Empty, Plainly([], "age", U32Ty)]);
  }

  /** `skip_fields`, continued: `.age(30)` leaves the skipped fields at their defaults. */
  lemma SkipFieldsChain()
    ensures Chain(ImplBlock("", "SkipFields", [Empty, Empty, Plainly([], "age", U32Ty)]),
              map["name" := Plain(Str("")), "test" := Plain(Str("")), "age" := NoneValue],
              [CallSite("age", Num(30))], Same)
      == Some(map["name" := Plain(Str("")), "test" := Plain(Str("")), "age" := SomeValue(Num(30))])
  {
    var b := ImplBlock("", "SkipFields", [Empty, Empty, Plainly([], "age", U32Ty)]);
    var v0: Instance<Val> := map["name" := Plain(Str("")), "test" := Plain(Str("")), "age" := NoneValue];
    assert MethodNamed(b.items, "age") == Some(b.items[2].setter) by {
      assert b.items[1..] == [Empty, Plainly([], "age", U32Ty)];
      assert b.items[1..][1..] == [Plainly([], "age", U32Ty)];
    }
    assert [CallSite("age", Num(30))][1..] == [];
    assert Call(b.items[2].setter, v0, Num(30), Same)
      == map["name" := Plain(Str("")), "test" := Plain(Str("")), "age" := SomeValue(Num(30))];
  }

  const NameDocs := [Doc(" Name of the person"), Doc(" This is a multiline doc comment"),
                     Doc(" This is the last line of the multiline doc comment")]
  const AgeDocs := [Doc(" Age of the person")]

  /** `doc_comments`: each method carries its field's doc lines in order. */
  lemma DocComments()
    ensures DeriveBuilder(NamedStruct("DocComments", [Doc(" A struct with doc comments")],
              [Field("name", Opt(StringTy), NameDocs), Field("age", Opt(U32Ty), AgeDocs)]))
      == Generated(ImplBlock("", "DocComments", [Plainly(NameDocs, "name", StringTy), Plainly(AgeDocs, "age", U32Ty)]))
  {
    assert ValidIdent("name") && ValidIdent("age");
    DocumentedOptionField("name", StringTy, NameDocs, NoGlobal);
    DocumentedOptionField("age", U32Ty, AgeDocs, NoGlobal);
    var attrs := [Doc(" A struct with doc comments")];
    assert FindBuildIt(attrs) == None;
    ExpandsTo(NamedStruct("DocComments", attrs, [Field("name", Opt(StringTy), NameDocs), Field("age", Opt(U32Ty), AgeDocs)]),
              NoGlobal, [Plainly(NameDocs, "name", StringTy), Plainly(AgeDocs, "age", U32Ty)]);
  }

  /** `into`: the struct-level `#[build_it(into)]` makes every method convert. */
  lemma IntoEverywhere()
    ensures DeriveBuilder(NamedStruct("Into", [BuildIt([IntoItem])],
              [Field("name", Opt(StringTy), []), Field("age", Opt(U32Ty), [])]))
      == Generated(ImplBlock("", "Into",
           [Method(Setter([], "name", "name", "name", StringTy, true)), Method(Setter([], "age", "age", "age", U32Ty, true))]))
  {
    var g := GlobalAttr(true);
    assert ParseGlobalItems([IntoItem]) == g by {
      assert [IntoItem][..0] == [];
    }
    assert GlobalAttrOf([BuildIt([IntoItem])]) == Ok(g);
    assert ValidIdent("name") && ValidIdent("age");
    DocumentedOptionField("name", StringTy, [], g);
    DocumentedOptionField("age", U32Ty, [], g);
    ExpandsTo(NamedStruct("Into", [BuildIt([IntoItem])], [Field("name", Opt(StringTy), []), Field("age", Opt(U32Ty), [])]),
              g, [Method(Setter([], "name", "name", "name", StringTy, true)), Method(Setter([], "age", "age", "age", U32Ty, true))]);
  }

  /** A non-`Option` field that is not skipped gives an error in its place; its sibling
      still gets its method. */
  lemma NonOptionSibling()
    ensures DeriveBuilder(NamedStruct("S", [], [Field("age", U32Ty, []), Field("name", Opt(StringTy), [])]))
      == Generated(ImplBlock("", "S", [FieldError("age", OptionOnlyMessage), Plainly([], "name", StringTy)]))
  {
    assert ValidIdent("name") && ValidIdent("age");
    assert FindBuildIt([]) == None;
    assert GenerateBuilderMethod(Field("age", U32Ty, []), NoGlobal) == Ok(FieldError("age", OptionOnlyMessage));
    DocumentedOptionField("name", StringTy, [], NoGlobal);
    ExpandsTo(NamedStruct("S", [], [Field("age", U32Ty, []), Field("name", Opt(StringTy), [])]),
              NoGlobal, [FieldError("age", OptionOnlyMessage), Plainly([], "name", StringTy)]);
  }

  const RenamedDocs := [Doc(" renamed: first line"), Doc(" renamed: second line")]
  const IntoDocs := [Doc(" name_into: doc")]
  const AwesomeFields := [
    Field("name", Opt(StringTy), []),
    Field("age", Opt(U32Ty), []),
    Field("address", StringTy, [BuildIt([SkipItem])]),
    Field("renamed", Opt(StringTy), RenamedDocs + [BuildIt([RenameItem])]),
    Field("name_into", Opt(StringTy), IntoDocs + [BuildIt([IntoItem])]),
    Field("phone", Opt(StringTy), [BuildIt([SkipItem])])]
  const AwesomeItems := [
    Plainly([], "name", StringTy),
    Plainly([], "age", U32Ty),
    Empty,
    Method(Setter(RenamedDocs, "new_name", "renamed", "renamed", StringTy, false)),
    Method(Setter(IntoDocs, "name_into", "name_into", "name_into", StringTy, true)),
    Empty]

  lemma AwesomeRenamed()
    ensures GenerateBuilderMethod(AwesomeFields[3], NoGlobal) == Ok(AwesomeItems[3])
  {
    assert ValidIdent("new_name");
    RenamedField("renamed", "new_name", StringTy, RenamedDocs, NoGlobal);
  }

  lemma AwesomeInto()
    ensures GenerateBuilderMethod(AwesomeFields[4], NoGlobal) == Ok(AwesomeItems[4])
  {
    assert ValidIdent("name_into");
    IntoField("name_into", StringTy, IntoDocs, NoGlobal);
  }

  lemma AwesomeSkipped(k: nat)
    requires k == 2 || k == 5
    ensures GenerateBuilderMethod(AwesomeFields[k], NoGlobal) == Ok(Empty)
  {
    SkippedField(AwesomeFields[k].name, StringTy, NoGlobal);
    SkippedField(AwesomeFields[k].name, Opt(StringTy), NoGlobal);
  }

  /** The crate's own example: plain, skipped, renamed and field-level `into` fields. */
  lemma CrateExample()
    ensures DeriveBuilder(NamedStruct("MyAwesomeStruct", [], AwesomeFields))
      == Generated(ImplBlock("", "MyAwesomeStruct", AwesomeItems))
  {
    forall i | 0 <= i < |AwesomeFields|
      ensures GenerateBuilderMethod(AwesomeFields[i], NoGlobal) == Ok(AwesomeItems[i])
    {
      if i == 0 {
        assert ValidIdent("name");
        DocumentedOptionField("name", StringTy, [], NoGlobal);
      } else if i == 1 {
        assert ValidIdent("age");
        DocumentedOptionField("age", U32Ty, [], NoGlobal);
      } else if i == 3 {
        AwesomeRenamed();
      } else if i == 4 {
        AwesomeInto();
      } else {
        AwesomeSkipped(i);
      }
    }
    ExpandsTo(NamedStruct("MyAwesomeStruct", [], AwesomeFields), NoGlobal, AwesomeItems);
  }

  const NoValueRename := Meta(RenameKey, NoArg)
  const NumberRename := Meta(RenameKey, Eq(OtherLit("5")))
  const SpacedRename := Meta(RenameKey, Eq(StrLit("new name")))

  /** Malformed directives panic: `rename` without a value, with a non-string value, with a
      string that is not an identifier. */
  lemma MalformedRenames()
    ensures DeriveBuilder(NamedStruct("S", [], [Field("a", U32Ty, [BuildIt([NoValueRename])])])) == Panicked(ExpectedValue)
    ensures DeriveBuilder(NamedStruct("S", [], [Field("a", Opt(U32Ty), [BuildIt([NumberRename])])])) == Panicked(FailedToParse)
    ensures DeriveBuilder(NamedStruct("S", [], [Field("a", Opt(U32Ty), [BuildIt([SpacedRename])])]))
      == Panicked(InvalidIdent("new name"))
  {
    ParseOne(NoValueRename);
    ParseOne(NumberRename);
    ParseOne(SpacedRename);
    assert !ValidIdent("new name") by {
      assert !IdentContinue("new name"[3]);
    }
    var fs := [Field("a", U32Ty, [BuildIt([NoValueRename])]), Field("a", Opt(U32Ty), [BuildIt([NumberRename])]),
               Field("a", Opt(U32Ty), [BuildIt([SpacedRename])])];
    DirectedField(fs[0], [], [NoValueRename]);
    DirectedField(fs[1], [], [NumberRename]);
    DirectedField(fs[2], [], [SpacedRename]);
    assert GenerateMethods([fs[0]], NoGlobal) == Err(ExpectedValue);
    assert GenerateMethods([fs[1]], NoGlobal) == Err(FailedToParse);
    assert GenerateMethods([fs[2]], NoGlobal) == Err(InvalidIdent("new name"));
  }

  /** A struct-level `#[build_it]` that is not a list panics, even on an enum: the struct
      attribute is parsed before the input shape is looked at. */
  lemma GlobalPanicFirst()
    ensures DeriveBuilder(DeriveInput("E", "", [PathAttr(BuildItKey)], Enum)) == Panicked(FailedToParseGlobal)
  {
  }

  /** A bare `#[skip]` shields a field from its own malformed `build_it` attribute. */
  lemma SkipMarkerShields()
    ensures DeriveBuilder(NamedStruct("S", [], [Field("a", U32Ty, [BareSkip, BuildIt([NoValueRename])])]))
      == Generated(ImplBlock("", "S", [Empty]))
  {
    var shielded := Field("a", U32Ty, [BareSkip, BuildIt([NoValueRename])]);
    assert HasSkipMarker(shielded) by { assert PathOf(shielded.attrs[0]) == SkipKey; }
    ExpandsTo(NamedStruct("S", [], [shielded]), NoGlobal, [Empty]);
  }

  /** The input shapes other than a struct with named fields. */
  lemma OtherShapes()
    ensures DeriveBuilder(DeriveInput("E", "", [], Enum)) == CompileError(EnumMessage)
    ensures DeriveBuilder(DeriveInput("U", "", [], Union)) == CompileError(UnionMessage)
    ensures DeriveBuilder(DeriveInput("Unit", "", [], Struct(Unit))) == Nothing
    ensures DeriveBuilder(DeriveInput("Pair", "", [], Struct(Unnamed(2)))) == CompileError(UnnamedMessage)
  {
  }
}
