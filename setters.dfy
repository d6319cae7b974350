/** What the generated methods do when a program calls them: each takes the struct by value,
    stores `Some(arg)` (or `Some(arg.into())`) in its field and returns the struct. */
module Setters {
  import opened Basics
  import opened Builder

  /** The value of one field: an `Option` field is `None` or `Some(v)`; a field of any other
      type (one that was skipped) holds a plain value. */
  datatype Slot<V> = NoneValue | SomeValue(value: V) | Plain(value: V)

  /** A struct value, from field name to field value. */
  type Instance<V> = map<string, Slot<V>>

  /** One method call in a chain such as `.name("Alice")`. */
  datatype CallSite<V> = CallSite(name: string, arg: V)

  /** Calling setter `s` on `self`; `into` stands for the `Into` conversion the compiler picks. */
  function Call<V>(s: Setter, self: Instance<V>, arg: V, into: V -> V): (r: Instance<V>)
    requires s.field in self
    ensures r.Keys == self.Keys
    ensures r[s.field] == SomeValue(if s.convert then into(arg) else arg)
    ensures forall k :: k in self && k != s.field ==> r[k] == self[k]
  {
    self[s.field := SomeValue(if s.convert then into(arg) else arg)]
  }

  /** Calls on different fields can be made in either order. */
  lemma CallsCommute<V>(s1: Setter, s2: Setter, self: Instance<V>, a1: V, a2: V, into: V -> V)
    requires s1.field in self && s2.field in self && s1.field != s2.field
    ensures Call(s2, Call(s1, self, a1, into), a2, into) == Call(s1, Call(s2, self, a2, into), a1, into)
  {
  }

  /** Of two calls that assign the same field, the later one wins. */
  lemma LaterCallWins<V>(s1: Setter, s2: Setter, self: Instance<V>, a1: V, a2: V, into: V -> V)
    requires s1.field in self && s2.field == s1.field
    ensures Call(s2, Call(s1, self, a1, into), a2, into) == Call(s2, self, a2, into)
  {
  }

  /** The first generated method with the given name. */
  function MethodNamed(items: seq<Fragment>, name: string): (r: Option<Setter>)
    ensures r.Some? ==> Method(r.value) in items && r.value.name == name
    ensures r.None? <==> forall i :: 0 <= i < |items| && items[i].Method? ==> items[i].setter.name != name
  {
    if items == [] then None
    else if items[0].Method? && items[0].setter.name == name then Some(items[0].setter)
    else MethodNamed(items[1..], name)
  }

  /** A chain of calls, left to right; `None` when a call names no generated method (the
      program would not compile). */
  function Chain<V>(b: ImplBlock, self: Instance<V>, calls: seq<CallSite<V>>, into: V -> V): Option<Instance<V>>
    decreases |calls|
  {
    if calls == [] then Some(self)
    else
      match MethodNamed(b.items, calls[0].name)
      case None => None
      case Some(s) =>
        if s.field in self then Chain(b, Call(s, self, calls[0].arg, into), calls[1..], into) else None
  }

  /** A field that no generated method assigns (a skipped field, say) keeps its value through
      any chain of calls, and no chain adds or removes fields. */
  lemma {:induction false} UnassignedFieldsKept<V>(b: ImplBlock, self: Instance<V>, calls: seq<CallSite<V>>, into: V -> V, k: string)
    requires Chain(b, self, calls, into).Some?
    requires forall i :: 0 <= i < |b.items| && b.items[i].Method? ==> b.items[i].setter.field != k
    ensures Chain(b, self, calls, into).value.Keys == self.Keys
    ensures k in self ==> Chain(b, self, calls, into).value[k] == self[k]
    decreases |calls|
  {
    if calls != [] {
      var s := MethodNamed(b.items, calls[0].name).value;
      var i :| 0 <= i < |b.items| && b.items[i] == Method(s);
      UnassignedFieldsKept(b, Call(s, self, calls[0].arg, into), calls[1..], into, k);
    }
  }
}
