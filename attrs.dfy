/** `parse_attr` and `parse_global_attr`: folding the items of the first `#[build_it(...)]`
    attribute into a record of directives. */
module Attrs {
  import opened Basics
  import opened Syntax

  /** Field-level directives. */
  datatype Attr = Attr(skip: bool, into: bool, rename: Option<string>)

  /** Struct-level directives. */
  datatype GlobalAttr = GlobalAttr(into: bool)

  const DefaultAttr := Attr(false, false, None)
  const DefaultGlobalAttr := GlobalAttr(false)

  /** The position of the first attribute whose path is `build_it` (`iter().find(..)`). */
  function FindBuildIt(attrs: seq<Attribute>): (r: Option<nat>)
    ensures r.Some? ==> r.value < |attrs| && PathOf(attrs[r.value]) == BuildItKey
    ensures forall j :: 0 <= j < |attrs| && (r.None? || j < r.value) ==> PathOf(attrs[j]) != BuildItKey
  {
    if attrs == [] then None
    else if PathOf(attrs[0]) == BuildItKey then Some(0)
    else match FindBuildIt(attrs[1..])
      case None => None
      case Some(k) => Some(k + 1)
  }

  /** Some item of `items` has path `key`. */
  predicate Mentions(items: seq<Meta>, key: string) {
    exists i :: 0 <= i < |items| && items[i].path == key
  }

  /** A `rename` item is accepted only as `rename = "<string literal>"`. */
  predicate WellFormedItem(m: Meta) {
    m.path == RenameKey ==> m.arg.Eq? && m.arg.lit.StrLit?
  }

  /** The panic a malformed `rename` item raises. */
  function RenamePanic(m: Meta): Panic {
    if m.arg.Eq? then FailedToParse else ExpectedValue
  }

  /** `items[i]` is `rename = "name"` and no later item is a `rename`. */
  predicate LastRenameAt(items: seq<Meta>, i: int, name: string) {
    0 <= i < |items| && items[i] == Meta(RenameKey, Eq(StrLit(name))) && !Mentions(items[i + 1..], RenameKey)
  }

  /** One call of the `parse_nested_meta` closure on a field attribute. */
  function ItemStep(a: Attr, m: Meta): Result<Attr, Panic> {
    if m.path == SkipKey then Ok(a.(skip := true))
    else if m.path == IntoKey then Ok(a.(into := true))
    else if m.path == RenameKey then
      match m.arg
      case Eq(StrLit(s)) => Ok(a.(rename := Some(s)))
      case Eq(OtherLit(_)) => Err(FailedToParse)
      case _ => Err(ExpectedValue)
    else Ok(a)
  }

  /** The closure run over `items` from left to right, starting at the default record and
      stopping at the first panic. */
  function ParseItems(items: seq<Meta>): Result<Attr, Panic>
    decreases |items|
  {
    if items == [] then Ok(DefaultAttr)
    else match ParseItems(items[..|items| - 1])
      case Err(p) => Err(p)
      case Ok(a) => ItemStep(a, items[|items| - 1])
  }

  /** The field directives denoted by a field's attributes. */
  function AttrOf(attrs: seq<Attribute>): Result<Attr, Panic> {
    match FindBuildIt(attrs)
    case None => Ok(DefaultAttr)
    case Some(k) =>
      match attrs[k]
      case BuildIt(items) => ParseItems(items)
      case _ => Err(FailedToParse)   // `#[build_it]` or `#[build_it = ..]`: not a list
  }

  /** The items of the first `build_it` attribute, when it is a list. */
  function BuildItItems(attrs: seq<Attribute>): seq<Meta> {
    match FindBuildIt(attrs)
    case Some(k) => if attrs[k].BuildIt? then attrs[k].items else []
    case None => []
  }

  /** `parse_attr`: starts from the default record and updates it item by item. */
  method ParseAttr(field: Field) returns (r: Result<Attr, Panic>)
    ensures r == AttrOf(field.attrs)
  {
    var result := DefaultAttr;
    var found := FindBuildIt(field.attrs);
    if found.Some? {
      var attr := field.attrs[found.value];
      if !attr.BuildIt? {
        return Err(FailedToParse);
      }
      var items := attr.items;
      var i := 0;
      while i < |items|
        invariant 0 <= i <= |items|
        invariant ParseItems(items[..i]) == Ok(result)
      {
        var meta := items[i];
        assert items[..i + 1][..i] == items[..i];
        if meta.path == SkipKey {
          result := result.(skip := true);
        } else if meta.path == IntoKey {
          result := result.(into := true);
        } else if meta.path == RenameKey {
          if !meta.arg.Eq? {
            ErrorSticks(items, i + 1);
            return Err(ExpectedValue);
          }
          if !meta.arg.lit.StrLit? {
            ErrorSticks(items, i + 1);
            return Err(FailedToParse);
          }
          result := result.(rename := Some(meta.arg.lit.text));
        }
        i := i + 1;
      }
      assert items[..i] == items;
    }
    r := Ok(result);
  }

  /** Once the closure has panicked, later items change nothing. */
  lemma {:induction false} ErrorSticks(items: seq<Meta>, n: nat)
    requires n <= |items| && ParseItems(items[..n]).Err?
    ensures ParseItems(items) == ParseItems(items[..n])
    decreases |items| - n
  {
    if n < |items| {
      assert items[..n + 1][..n] == items[..n];
      ErrorSticks(items, n + 1);
    } else {
      assert items[..n] == items;
    }
  }

  /** Appending an item adds its path to the paths mentioned. */
  lemma MentionsSnoc(init: seq<Meta>, m: Meta, key: string)
    ensures Mentions(init + [m], key) <==> Mentions(init, key) || m.path == key
  {
    var items := init + [m];
    if Mentions(items, key) {
      var i :| 0 <= i < |items| && items[i].path == key;
      if i < |init| { assert init[i] == items[i]; }
    }
    if Mentions(init, key) {
      var i :| 0 <= i < |init| && init[i].path == key;
      assert items[i] == init[i];
    }
    assert items[|init|] == m;
  }

  /** The fold succeeds exactly when every `rename` item is `rename = "<string>"`. */
  lemma {:induction false} ParseItemsOk(items: seq<Meta>)
    ensures ParseItems(items).Ok? <==> forall i :: 0 <= i < |items| ==> WellFormedItem(items[i])
    decreases |items|
  {
    if items != [] {
      var n := |items| - 1;
      ParseItemsOk(items[..n]);
      assert forall i :: 0 <= i < n ==> items[..n][i] == items[i];
    }
  }

  /** On success, `skip` and `into` say whether an item with that path occurs. */
  lemma {:induction false} ParseItemsFlags(items: seq<Meta>)
    requires ParseItems(items).Ok?
    ensures ParseItems(items).value.skip <==> Mentions(items, SkipKey)
    ensures ParseItems(items).value.into <==> Mentions(items, IntoKey)
    decreases |items|
  {
    if items != [] {
      var n := |items| - 1;
      var init, m := items[..n], items[n];
      assert items == init + [m];
      var b := ParseItems(init).value;
      assert ParseItems(items) == ItemStep(b, m);
      ParseItemsFlags(init);
      ItemStepFlags(b, m);
      MentionsSnoc(init, m, SkipKey);
      MentionsSnoc(init, m, IntoKey);
    }
  }

  /** One item sets `skip` or `into` exactly when its path is that flag. */
  lemma ItemStepFlags(a: Attr, m: Meta)
    requires ItemStep(a, m).Ok?
    ensures ItemStep(a, m).value.skip == (a.skip || m.path == SkipKey)
    ensures ItemStep(a, m).value.into == (a.into || m.path == IntoKey)
  {
  }

  /** On success, `rename` is absent exactly when no `rename` item occurs, and otherwise
      holds the string of the last `rename` item. */
  lemma {:induction false} ParseItemsRename(items: seq<Meta>)
    requires ParseItems(items).Ok?
    ensures ParseItems(items).value.rename.None? <==> !Mentions(items, RenameKey)
    ensures ParseItems(items).value.rename.Some? ==>
      exists i :: LastRenameAt(items, i, ParseItems(items).value.rename.value)
    decreases |items|
  {
    if items != [] {
      var n := |items| - 1;
      var init, m := items[..n], items[n];
      assert items == init + [m];
      ParseItemsRename(init);
      MentionsSnoc(init, m, RenameKey);
      var a := ParseItems(items).value;
      if m.path == RenameKey {
        assert items[n + 1..] == [];
        assert LastRenameAt(items, n, a.rename.value);
      } else if a.rename.Some? {
        var i :| LastRenameAt(init, i, a.rename.value);
        assert items[i + 1..] == init[i + 1..] + [m];
        MentionsSnoc(init[i + 1..], m, RenameKey);
        assert LastRenameAt(items, i, a.rename.value);
      }
    }
  }

  /** When the fold panics, the panic is the one of the first malformed `rename` item. */
  lemma {:induction false} ParseItemsPanic(items: seq<Meta>)
    requires ParseItems(items).Err?
    ensures exists i :: (0 <= i < |items| && !WellFormedItem(items[i])
      && (forall j :: 0 <= j < i ==> WellFormedItem(items[j]))
      && ParseItems(items).error == RenamePanic(items[i]))
    decreases |items|
  {
    var n := |items| - 1;
    var init := items[..n];
    if ParseItems(init).Err? {
      ParseItemsPanic(init);
      var i :| 0 <= i < |init| && !WellFormedItem(init[i])
        && (forall j :: 0 <= j < i ==> WellFormedItem(init[j]))
        && ParseItems(init).error == RenamePanic(init[i]);
      assert forall j :: 0 <= j <= i ==> items[j] == init[j];
    } else {
      ParseItemsOk(init);
      assert forall j :: 0 <= j < n ==> items[j] == init[j];
    }
  }

  /** Only the first `build_it` attribute is read; any later one is ignored. */
  lemma FirstBuildItDecides(before: seq<Attribute>, items: seq<Meta>, after: seq<Attribute>)
    requires forall j :: 0 <= j < |before| ==> PathOf(before[j]) != BuildItKey
    ensures AttrOf(before + [BuildIt(items)] + after) == ParseItems(items)
    ensures BuildItItems(before + [BuildIt(items)] + after) == items
  {
    var attrs := before + [BuildIt(items)] + after;
    assert PathOf(attrs[|before|]) == BuildItKey;
    assert forall j :: 0 <= j < |before| ==> attrs[j] == before[j];
  }

  /** A field's directives in terms of its attributes: default without a `build_it`
      attribute, a panic for a `build_it` that is not a list, otherwise its items' meaning. */
  lemma AttrOfMeaning(attrs: seq<Attribute>)
    ensures (forall j :: 0 <= j < |attrs| ==> PathOf(attrs[j]) != BuildItKey) ==> AttrOf(attrs) == Ok(DefaultAttr)
    ensures AttrOf(attrs).Ok? ==>
      var a := AttrOf(attrs).value;
      var items := BuildItItems(attrs);
      && (a.skip <==> Mentions(items, SkipKey))
      && (a.into <==> Mentions(items, IntoKey))
      && (a.rename.None? <==> !Mentions(items, RenameKey))
      && (a.rename.Some? ==> exists i :: LastRenameAt(items, i, a.rename.value))
  {
    if FindBuildIt(attrs).Some? {
      var k := FindBuildIt(attrs).value;
      if attrs[k].BuildIt? && AttrOf(attrs).Ok? {
        ParseItemsFlags(attrs[k].items);
        ParseItemsRename(attrs[k].items);
      }
    }
  }

  /** One call of the closure on the struct's attribute: only `into` is looked at. */
  function GlobalStep(g: GlobalAttr, m: Meta): GlobalAttr {
    if m.path == IntoKey then g.(into := true) else g
  }

  function ParseGlobalItems(items: seq<Meta>): GlobalAttr
    decreases |items|
  {
    if items == [] then DefaultGlobalAttr
    else GlobalStep(ParseGlobalItems(items[..|items| - 1]), items[|items| - 1])
  }

  /** The struct directives denoted by the struct's attributes. */
  function GlobalAttrOf(attrs: seq<Attribute>): Result<GlobalAttr, Panic> {
    match FindBuildIt(attrs)
    case None => Ok(DefaultGlobalAttr)
    case Some(k) =>
      match attrs[k]
      case BuildIt(items) => Ok(ParseGlobalItems(items))
      case _ => Err(FailedToParseGlobal)
  }

  /** `parse_global_attr`: starts from the default record and updates it item by item. */
  method ParseGlobalAttr(input: DeriveInput) returns (r: Result<GlobalAttr, Panic>)
    ensures r == GlobalAttrOf(input.attrs)
  {
    var result := DefaultGlobalAttr;
    var found := FindBuildIt(input.attrs);
    if found.Some? {
      var attr := input.attrs[found.value];
      if !attr.BuildIt? {
        return Err(FailedToParseGlobal);
      }
      var items := attr.items;
      var i := 0;
      while i < |items|
        invariant 0 <= i <= |items|
        invariant ParseGlobalItems(items[..i]) == result
      {
        assert items[..i + 1][..i] == items[..i];
        if items[i].path == IntoKey {
          result := result.(into := true);
        }
        i := i + 1;
      }
      assert items[..i] == items;
    }
    r := Ok(result);
  }

  /** The struct-level `into` is set exactly when an `into` item occurs. */
  lemma {:induction false} GlobalIntoMeaning(items: seq<Meta>)
    ensures ParseGlobalItems(items).into <==> Mentions(items, IntoKey)
    decreases |items|
  {
    if items != [] {
      var n := |items| - 1;
      var init := items[..n];
      GlobalIntoMeaning(init);
      if Mentions(items, IntoKey) && items[n].path != IntoKey {
        var i :| 0 <= i < |items| && items[i].path == IntoKey;
        assert init[i] == items[i];
      }
      if Mentions(init, IntoKey) {
        var i :| 0 <= i < |init| && init[i].path == IntoKey;
        assert items[i] == init[i];
      }
    }
  }

  /** The struct attribute either panics (a `build_it` that is not a list) or gives
      `into` exactly when its first `build_it` list has an `into` item. */
  lemma GlobalAttrOfMeaning(attrs: seq<Attribute>)
    ensures GlobalAttrOf(attrs).Err? <==> exists k :: FindBuildIt(attrs) == Some(k) && !attrs[k].BuildIt?
    ensures GlobalAttrOf(attrs).Ok? ==> (GlobalAttrOf(attrs).value.into <==> Mentions(BuildItItems(attrs), IntoKey))
  {
    GlobalIntoMeaning(BuildItItems(attrs));
  }
}
