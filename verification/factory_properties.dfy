/** Properties relating several calls on one factory: last-write-wins
    registration, override precedence shared by the three entry points,
    lookup by raw class only, and the copy made by the extension call. */
module FactoryProperties {
  import opened Wrappers
  import opened JavaTypes
  import opened CustomDeserializerFactory

  /** A second registration for the same class replaces the first. */
  lemma SpecificMappingLastWriteWins<D, X>(f: Factory<D, X>, c: Class, first: Option<D>, second: Option<D>)
    ensures AddSpecificMapping(AddSpecificMapping(f, c, first), c, second) == AddSpecificMapping(f, c, second)
  {
    var m := if f.directClassMappings.None? then map[] else f.directClassMappings.value;
    assert m[KeyOf(c) := first][KeyOf(c) := second] == m[KeyOf(c) := second];
  }

  /** A second mix-in registration for the same destination replaces the first. */
  lemma MixInLastWriteWins<D, X>(f: Factory<D, X>, destination: Class, first: Option<Class>, second: Option<Class>)
    ensures AddMixInAnnotationMapping(AddMixInAnnotationMapping(f, destination, first), destination, second)
            == AddMixInAnnotationMapping(f, destination, second)
  {
    var m := if f.mixInAnnotations.None? then map[] else f.mixInAnnotations.value;
    assert m[KeyOf(destination) := first][KeyOf(destination) := second] == m[KeyOf(destination) := second];
  }

  /** Registrations for different classes commute. */
  lemma SpecificMappingsCommute<D, X>(f: Factory<D, X>, a: Class, da: Option<D>, b: Class, db: Option<D>)
    requires a != b
    ensures AddSpecificMapping(AddSpecificMapping(f, a, da), b, db)
            == AddSpecificMapping(AddSpecificMapping(f, b, db), a, da)
  {
    var m := if f.directClassMappings.None? then map[] else f.directClassMappings.value;
    assert m[KeyOf(a) := da][KeyOf(b) := db] == m[KeyOf(b) := db][KeyOf(a) := da];
  }

  /** Mix-in registrations for different destinations commute. */
  lemma MixInsCommute<D, X>(f: Factory<D, X>, a: Class, sa: Option<Class>, b: Class, sb: Option<Class>)
    requires a != b
    ensures AddMixInAnnotationMapping(AddMixInAnnotationMapping(f, a, sa), b, sb)
            == AddMixInAnnotationMapping(AddMixInAnnotationMapping(f, b, sb), a, sa)
  {
    var m := if f.mixInAnnotations.None? then map[] else f.mixInAnnotations.value;
    assert m[KeyOf(a) := sa][KeyOf(b) := sb] == m[KeyOf(b) := sb][KeyOf(a) := sa];
  }

  /** Until the first registration the direct map is absent, and all three
      entry points return exactly what the base chain returns. */
  lemma NoDirectMapDelegates<D, X, C, P, E>(
    f: Factory<D, X>, base: BaseChain<D, X, C, P, E>, config: C,
    t: JavaType, at: ArrayType, enumClass: Class, p: P)
    requires f.directClassMappings.None?
    ensures CreateBeanDeserializer(f, base, config, t, p) == base.createBean(f.additionalDeserializers, config, t, p)
    ensures CreateArrayDeserializer(f, base, config, at, p) == base.createArray(f.additionalDeserializers, config, at, p)
    ensures CreateEnumDeserializer(f, base, config, enumClass, p)
            == base.createEnum(f.additionalDeserializers, config, enumClass, p)
  {
  }

  /** One registration serves every entry point: after mapping `c` to a
      non-null `d`, bean, array and enum resolution of class `c` all return
      `d`, whatever the base chain and the providers are. */
  lemma OneRegistrationServesAllCategories<D, X, C, P, E>(
    f: Factory<D, X>, c: Class, d: D, base: BaseChain<D, X, C, P, E>, config: C,
    t: JavaType, at: ArrayType, p: P)
    requires t.rawClass == c && at.rawClass == c
    ensures var g := AddSpecificMapping(f, c, Some(d));
            && CreateBeanDeserializer(g, base, config, t, p) == Success(d)
            && CreateArrayDeserializer(g, base, config, at, p) == Success(d)
            && CreateEnumDeserializer(g, base, config, c, p) == Success(d)
  {
  }

  /** Registering `null` for a class is stored, but the lookup treats it as
      a miss: resolution falls through to the base chain. */
  lemma NullRegistrationDelegates<D, X, C, P, E>(
    f: Factory<D, X>, c: Class, base: BaseChain<D, X, C, P, E>, config: C, t: JavaType, p: P)
    requires t.rawClass == c
    ensures var g := AddSpecificMapping(f, c, None);
            && Entry(g, KeyOf(c)) == Some(None)
            && CreateBeanDeserializer(g, base, config, t, p)
               == base.createBean(f.additionalDeserializers, config, t, p)
  {
  }

  /** Lookup depends on the raw class alone: descriptors that share it (say
      `List<String>` and `List<Integer>`) get the same override, and when
      there is none each is handed to the base chain as given. */
  lemma OverrideDependsOnRawClassOnly<D, X, C, P, E>(
    f: Factory<D, X>, base: BaseChain<D, X, C, P, E>, config: C, t1: JavaType, t2: JavaType, p: P)
    requires t1.rawClass == t2.rawClass
    ensures DirectLookup(f, KeyOf(t1.rawClass)).Some? ==>
              CreateBeanDeserializer(f, base, config, t1, p) == CreateBeanDeserializer(f, base, config, t2, p)
              == CreateEnumDeserializer(f, base, config, t1.rawClass, p)
    ensures DirectLookup(f, KeyOf(t1.rawClass)).None? ==>
              && CreateBeanDeserializer(f, base, config, t1, p) == base.createBean(f.additionalDeserializers, config, t1, p)
              && CreateBeanDeserializer(f, base, config, t2, p) == base.createBean(f.additionalDeserializers, config, t2, p)
  {
  }

  /** A successful extension yields a factory without overrides: every
      entry point delegates, and the base chain sees the new provider. */
  lemma ExtensionDropsOverrides<D, X, C, P, E>(
    f: Factory<D, X>, x: X, insertAt: nat, base: BaseChain<D, X, C, P, E>, config: C,
    t: JavaType, at: ArrayType, enumClass: Class, p: P)
    requires f.runtimeClass == CustomFactoryClass
    ensures var r := WithAdditionalDeserializers(f, Some(x), insertAt);
            && r.Success?
            && x in r.value.additionalDeserializers
            && (forall y :: y in f.additionalDeserializers ==> y in r.value.additionalDeserializers)
            && CreateBeanDeserializer(r.value, base, config, t, p)
               == base.createBean(r.value.additionalDeserializers, config, t, p)
            && CreateArrayDeserializer(r.value, base, config, at, p)
               == base.createArray(r.value.additionalDeserializers, config, at, p)
            && CreateEnumDeserializer(r.value, base, config, enumClass, p)
               == base.createEnum(r.value.additionalDeserializers, config, enumClass, p)
  {
  }

  /** Any override is gone after an extension call: before the call the
      entry point answers with the registered deserializer, on the copy it
      answers with whatever the base chain gives for the extended providers. */
  lemma OverrideLostAfterExtension<D, X, C, P, E>(
    f: Factory<D, X>, x: X, insertAt: nat, base: BaseChain<D, X, C, P, E>, config: C,
    t: JavaType, p: P, d: D)
    requires f.runtimeClass == CustomFactoryClass
    requires DirectLookup(f, KeyOf(t.rawClass)) == Some(d)
    ensures CreateBeanDeserializer(f, base, config, t, p) == Success(d)
    ensures CreateEnumDeserializer(f, base, config, t.rawClass, p) == Success(d)
    ensures var r := WithAdditionalDeserializers(f, Some(x), insertAt);
            && r.Success?
            && CreateBeanDeserializer(r.value, base, config, t, p)
               == base.createBean(r.value.additionalDeserializers, config, t, p)
            && CreateEnumDeserializer(r.value, base, config, t.rawClass, p)
               == base.createEnum(r.value.additionalDeserializers, config, t.rawClass, p)
  {
  }

  /** A concrete instance of `OverrideLostAfterExtension`:
      with `Money` mapped to deserializer 7 and a base chain that cannot build
      one, resolution succeeds before the call and fails after it. */
  lemma OverrideLostExample(t: JavaType)
    requires t.rawClass == Class(0, "Money")
    ensures var base: BaseChain<int, string, (), (), string> := BaseChain(
                          (xs, c, jt, p) => Failure("no deserializer"),
                          (xs, c, at, p) => Failure("no deserializer"),
                          (xs, c, e, p) => Failure("no deserializer"));
            var f := AddSpecificMapping(NewFactory(CustomFactoryClass), Class(0, "Money"), Some(7));
            var r := WithAdditionalDeserializers(f, Some("extra"), 0);
            && CreateBeanDeserializer(f, base, (), t, ()) == Success(7)
            && r.Success?
            && CreateBeanDeserializer(r.value, base, (), t, ()) == Failure("no deserializer")
  {
  }
}
