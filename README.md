# build-it: the `Builder` derive, modelled in Dafny

`build_it` is a Rust procedural macro. `#[derive(Builder)]` on a struct generates one
chained setter per field: `pub fn name(mut self, name: T) -> Self` stores `Some(name)` in
the field and returns the struct. Each such field must be declared `Option<T>`. Directives
in `#[build_it(...)]` change the output. On a field, `skip` drops the field, `rename = "x"`
renames the method and `into` makes the parameter `impl Into<T>`. On the struct, `into`
applies to every field. The legacy bare `#[skip]` also drops a field.

This project models the macro's decision logic, from `src/lib.rs`, with the `syn`/`quote`
plumbing stripped away:

- `syntax.dfy`: the part of the parsed input the macro reads. This covers attributes (keyed
  by their path, as `is_ident` compares them), nested meta items, type paths with their
  generic arguments, fields and the four input shapes.
- `type_shape.dfy`: `get_inner_type`.
- `attrs.dfy`: `Attr`, `GlobalAttr`, `parse_attr` and `parse_global_attr`. Both parsers
  are methods with a loop that updates a default record item by item. Each is proved equal
  to a left fold (`ParseItems`, `ParseGlobalItems`). Lemmas then state what the fold means
  in terms of the items.
- `builder.dfy`: `generate_builder_method`, `generate_builder_impl` and `derive_builder`.
  The output is a sequence of fragments, `Empty | FieldError | Method(Setter)`, inside one
  `ImplBlock`. The other outcomes are a compile error for an unsupported shape, nothing for
  a unit struct, or a panic.
- `setters.dfy`: what a generated method does when it is called. It sets exactly one field
  to `Some(v)` and leaves every other field unchanged.
- `scenarios.dfy`: the crate's documented example and the structs of `tests/tests.rs`,
  expanded by the model.

Panics are modelled as an outcome that aborts the whole expansion. They come from the
`.expect` calls on malformed attributes and from `syn::Ident::new` on a method name that is
not an identifier. Panics are checked in the order the code reaches them. The struct
attribute is parsed before the input shape is examined. On a field, the bare `#[skip]` is
checked before `build_it` is parsed, and `Ident::new` runs before the type check.

A field whose type is not `Option<T>` does not abort the derive. It yields a
`compile_error!` fragment inside the `impl` block, and its siblings still get their methods
(`src/lib.rs:239-246`, `src/lib.rs:192-198`). The model follows the code here. It does not
follow the prose reading that such a field aborts the whole derive.

## Model

| member | source | states |
|---|---|---|
| `TypeShape.InnerTypeIff` | src/lib.rs:330-345 | the inner type is `t` exactly when the type is a path whose first segment is `Option` and whose first angle-bracketed argument is the type `t` (later arguments and segments are allowed) |
| `TypeShape.InnerTypeOfOption` | src/lib.rs:330-345 | round trip: `Option<t>` gives back `t` |
| `TypeShape.InnerTypeRejections` | src/lib.rs:331-344 | `Option<'a>`, `std::option::Option<T>`, bare `Option`, `Option(T)`, `Option<>` and non-path types give no inner type; `Option<Option<T>>` is unwrapped only once |
| `Attrs.FindBuildIt` | src/lib.rs:306-309 | the position of the first attribute whose path is `build_it`, with no such attribute before it; none exactly when no attribute is `build_it` |
| `Attrs.ParseAttr` | src/lib.rs:305-327 | the loop that updates the default record item by item returns exactly the fold of the first `build_it` list: the default record without one, a panic if it is not a list |
| `Attrs.ErrorSticks` | src/lib.rs:312-324 | once an item has panicked, the items after it change nothing |
| `Attrs.ParseItemsOk` | src/lib.rs:317-324 | the field directives parse exactly when every `rename` item is `rename = "<string literal>"` |
| `Attrs.ParseItemsFlags` | src/lib.rs:313-316 | after a successful parse, `skip` (resp. `into`) is set exactly when an item with that path occurs |
| `Attrs.ItemStepFlags` | src/lib.rs:313-316 | one item sets `skip` or `into` exactly when its path is that flag, and never clears a flag |
| `Attrs.ParseItemsRename` | src/lib.rs:317-320 | after a successful parse, `rename` is absent exactly when no `rename` item occurs, and otherwise is the string of the last `rename` item |
| `Attrs.ParseItemsPanic` | src/lib.rs:317-324 | a failed parse is the panic of the first malformed `rename`: "Expected a value" with no `=`, "Failed to parse build_it attribute" with a non-string value |
| `Attrs.FirstBuildItDecides` | src/lib.rs:306-311 | only the first `build_it` attribute is read; later ones are ignored |
| `Attrs.AttrOfMeaning` | src/lib.rs:305-327 | the default record when no attribute is `build_it`; otherwise `skip`, `into` and `rename` as the items of the first `build_it` list say |
| `Attrs.ParseGlobalAttr` | src/lib.rs:280-296 | the loop over the struct's first `build_it` list returns exactly its fold; a panic if that attribute is not a list |
| `Attrs.GlobalIntoMeaning` | src/lib.rs:287-290 | the struct-level `into` is set exactly when an `into` item occurs; other items are ignored |
| `Attrs.GlobalAttrOfMeaning` | src/lib.rs:280-296 | the struct attribute panics exactly when its first `build_it` is not a list; otherwise `into` is set exactly when that list has an `into` item |
| `Builder.DocsOf` | src/lib.rs:249-255 | the carried attributes are doc attributes of the field and are no more than the field has |
| `Builder.DocsOfAppend` | src/lib.rs:249-255 | the doc filter distributes over concatenation and keeps a single attribute exactly when it is a doc attribute, so it keeps exactly the doc attributes, in their order |
| `Builder.SkipIffEmpty` | src/lib.rs:223-232 | a field yields the empty fragment exactly when it carries `#[skip]` or a well-formed `#[build_it(skip)]`; a skipped field does so whatever its type |
| `Builder.SetterFromField` | src/lib.rs:234-272 | a generated method is named by the last `rename` of the field's `build_it` list, or by the field's own name when there is none; its parameter and assigned field are the field's name; it converts exactly when the field or the struct has `into`; its parameter type is `T` of the field's `Option<T>`; it carries the field's doc attributes |
| `Builder.NonOptionFieldError` | src/lib.rs:239-246 | a field yields an error fragment exactly when it is not skipped, its directives parse, its method name is an identifier and its type is not `Option<T>`; the error names that field and carries the fixed message |
| `Builder.GenerateMethods` | src/lib.rs:192-194 | one fragment per field, in declaration order, each that field's own fragment; if any field panics, the result is the panic of the first such field |
| `Builder.SiblingIsolation` | src/lib.rs:192-198 | changing one field (to one that does not panic) changes only that field's fragment |
| `Builder.FirstPanicAborts` | src/lib.rs:192-198 | a panic in any field aborts the whole expansion with the panic of the first panicking field |
| `Builder.DeriveShapes` | src/lib.rs:125-159 | an enum or a union gives its compile error, a unit struct gives nothing and a tuple struct gives its compile error; a named-field struct gives one block with the struct's name and generics and one fragment per field, in order |
| `Builder.OneMethodPerField` | src/lib.rs:185-200 | a named-field struct whose fields are all unskipped `Option` fields gets exactly one method per field, in order, each assigning its own field |
| `Setters.Call` | src/lib.rs:256-272 | a call sets its field to `Some(arg)`, or `Some(arg.into())` when converting; it leaves every other field as it was and keeps the set of fields |
| `Setters.CallsCommute` | src/lib.rs:256-272 | calls on different fields give the same struct in either order |
| `Setters.LaterCallWins` | src/lib.rs:256-272 | of two calls on the same field, the later one decides its value |
| `Setters.MethodNamed` | src/lib.rs:234-238 | the method found has the requested name and is in the block; none is found exactly when no method has that name |
| `Setters.UnassignedFieldsKept` | src/lib.rs:40-47 | a field that no generated method assigns, such as a skipped one, keeps its value through any chain of calls |
| `Scenarios.IntoField` | src/lib.rs:256-263 | a field with `#[build_it(into)]` gets a converting setter under its own name |
| `Scenarios.RenamedField` | src/lib.rs:234-238 | a field with `#[build_it(rename = "x")]` gets a setter `x` that still assigns the field |
| `Scenarios.SkippedField` | src/lib.rs:229-232 | a field with `#[build_it(skip)]` of any type gives nothing |
| `Scenarios.SimpleStruct` | tests/tests.rs:15-25 | two `Option` fields give two plain setters |
| `Scenarios.SimpleStructChain` | tests/tests.rs:22-24 | `.name("Alice").age(30)` on the default value gives `Some("Alice")` and `Some(30)` |
| `Scenarios.Lifetimes` | tests/tests.rs:27-37 | the generics are copied, and `Option<&'a str>` gives a setter taking `&'a str` |
| `Scenarios.Rename` | tests/tests.rs:39-50 | the renamed method is `new_name` and assigns `name` |
| `Scenarios.RenameHidesFieldName` | tests/tests.rs:47 | after the rename, no method is called `name` |
| `Scenarios.SkipFields` | tests/tests.rs:52-67 | both skip forms give no method for a `String` field |
| `Scenarios.SkipFieldsChain` | tests/tests.rs:63-66 | `.age(30)` leaves the skipped fields at their defaults |
| `Scenarios.DocComments` | tests/tests.rs:69-85 | each method carries its field's doc lines, in order |
| `Scenarios.IntoEverywhere` | tests/tests.rs:87-99 | the struct-level `into` makes every method convert |
| `Scenarios.NonOptionSibling` | src/lib.rs:239-246 | a non-`Option` field gives an error in its place, and its sibling still gets its method |
| `Scenarios.CrateExample` | src/lib.rs:11-36 | the crate's example gives plain, skipped, renamed and field-level `into` setters, in field order |
| `Scenarios.MalformedRenames` | src/lib.rs:317-320 | `rename` without a value, with a number, or with a string that is not an identifier panics |
| `Scenarios.GlobalPanicFirst` | src/lib.rs:127-128 | a malformed struct attribute panics even on an enum, because it is parsed before the shape is examined |
| `Scenarios.SkipMarkerShields` | src/lib.rs:225-229 | a bare `#[skip]` keeps a field's malformed `build_it` attribute from being parsed |
| `Scenarios.OtherShapes` | src/lib.rs:129-156 | an enum, a union, a unit struct and a tuple struct give their fixed outcomes |

## Left out

- Token streams are left out: `parse_macro_input!`, `quote!`, `TokenStream` conversions and `to_compile_error`. The model's datatypes stand for their results.
- Spans (`Span::call_site()`, `field.span()`) and identifier hygiene are left out; they carry no checkable behaviour.
- Rust's type checking of `impl Into<T>` and the `.into()` call are left out. Conversion is a flag on the setter and a caller-supplied function in `Setters.Call`.
- Generics are an opaque string copied into the `impl` header. The model does not say how `impl #generics #name #generics` renders bounds or where-clauses.
- `syn`'s tokenizer rules for nested meta items are left out. For example, `syn` rejects `skip = ..` or an unknown `key = value` with "expected `,`" after the closure returns. The model reads flags and unknown keys by their path only.
- Panic message details are left out. The model keeps which `.expect` fires, not the `syn` error text appended to it.
- `Ident::new` is modelled over ASCII only: a letter or `_`, then letters, digits or `_`. Unicode identifiers, raw identifiers (`r#type`) and the compiler's exact rules are not modelled.
- Field visibility is left out; the macro never reads it.
- Duplicate method names (two fields renamed alike) are left out. The Rust compiler rejects them later; the macro does not check.
- `tests/tests.rs` is not a model target. Its structs appear only as scenario lemmas.
