/** The override-resolution layer of a custom deserializer factory: an
    exact-class override map and a mix-in annotation map, both created on
    first use, placed in front of an inherited base factory chain. */
module CustomDeserializerFactory {
  import opened Wrappers
  import opened JavaTypes
  import ArrayBuilders

  /** The runtime class of a factory instance: exactly the custom factory, or
      a subclass of it (named, for error messages) that does not override
      `withAdditionalDeserializers` and inherits every other member modelled
      here. */
  datatype RuntimeClass = CustomFactoryClass | Subclass(className: string)

  /** The configuration errors `withAdditionalDeserializers` can throw. */
  datatype ConfigError =
    | IllegalArgumentException(message: string)
    | IllegalStateException(message: string)

  /** Factory state. `D` is the deserializer type, `X` the type of additional
      deserializer providers. A map is `None` until its first registration;
      a stored value is `None` when `null` was registered. */
  datatype Factory<D, X> = Factory(
    runtimeClass: RuntimeClass,
    additionalDeserializers: seq<X>,
    directClassMappings: Option<map<ClassKey, Option<D>>>,
    mixInAnnotations: Option<map<ClassKey, Option<Class>>>)

  /** The inherited base chain, one entry point per category. Each receives
      the factory's additional providers and the caller's arguments, and may
      throw a mapping error `E`. `C` is the deserialization config, `P` the
      deserializer provider; both are passed through untouched. */
  datatype BaseChain<D, !X, !C, !P, E> = BaseChain(
    createBean: (seq<X>, C, JavaType, P) -> Result<D, E>,
    createArray: (seq<X>, C, ArrayType, P) -> Result<D, E>,
    createEnum: (seq<X>, C, Class, P) -> Result<D, E>)

  /* ---------------------------------------------------------------------
     Views of the two maps
     --------------------------------------------------------------------- */

  /** What the direct map holds for `k`: `None` if the map is absent or has no
      entry for `k`, otherwise the stored (possibly null) deserializer. */
  function Entry<D, X>(f: Factory<D, X>, k: ClassKey): Option<Option<D>>
  {
    match f.directClassMappings
    case None => None
    case Some(m) => if k in m then Some(m[k]) else None
  }

  /** What the mix-in map holds for destination key `k`. */
  function MixInEntry<D, X>(f: Factory<D, X>, k: ClassKey): Option<Option<Class>>
  {
    match f.mixInAnnotations
    case None => None
    case Some(m) => if k in m then Some(m[k]) else None
  }

  /** The lookup the three entry points share: a hit needs the map to exist,
      to hold `k`, and the stored deserializer to be non-null. */
  function DirectLookup<D, X>(f: Factory<D, X>, k: ClassKey): (r: Option<D>)
    ensures r.Some? <==> Entry(f, k).Some? && Entry(f, k).value.Some?
    ensures r.Some? ==> Entry(f, k) == Some(r)
  {
    if f.directClassMappings.None? then None
    else if k !in f.directClassMappings.value then None
    else f.directClassMappings.value[k]
  }

  /* ---------------------------------------------------------------------
     Construction
     --------------------------------------------------------------------- */

  /** The protected constructor: records the providers and creates neither map. */
  function Construct<D, X>(runtimeClass: RuntimeClass, allAdditionalDeserializers: seq<X>): (f: Factory<D, X>)
    ensures f.additionalDeserializers == allAdditionalDeserializers
    ensures f.runtimeClass == runtimeClass
    ensures f.directClassMappings.None? && f.mixInAnnotations.None?
  {
    Factory(runtimeClass, allAdditionalDeserializers, None, None)
  }

  /** The public no-argument constructor: no additional providers. */
  function NewFactory<D, X>(runtimeClass: RuntimeClass): (f: Factory<D, X>)
    ensures f.additionalDeserializers == []
    ensures f.runtimeClass == runtimeClass
    ensures f.directClassMappings.None? && f.mixInAnnotations.None?
  {
    Construct(runtimeClass, [])
  }

  const NullDeserializersMessage := "Can not pass null Deserializers"
  const SubtypeMessagePrefix := "Subtype of CustomDeserializerFactory ("
  const SubtypeMessageSuffix :=
    ") has not properly overridden method 'withAdditionalDeserializers': can not instantiate subtype with "
    + "additional deserializer definitions"

  /** The message of the subclass error; it names the offending class. */
  function SubtypeMessage(className: string): (msg: string)
    ensures |SubtypeMessagePrefix| + |className| <= |msg|
    ensures msg[..|SubtypeMessagePrefix|] == SubtypeMessagePrefix
    ensures msg[|SubtypeMessagePrefix|..|SubtypeMessagePrefix| + |className|] == className
  {
    SubtypeMessagePrefix + className + SubtypeMessageSuffix
  }

  /** Copy-with-extension. A null provider is refused first; then any
      receiver whose runtime class is not exactly the custom factory. On
      success the result is a fresh factory built from the extended list
      only, so it carries no direct mappings and no mix-ins. The unseen
      array helper's choice of position is the parameter `insertAt`. */
  function WithAdditionalDeserializers<D, X(==)>(f: Factory<D, X>, additional: Option<X>, insertAt: nat)
    : (r: Result<Factory<D, X>, ConfigError>)
    ensures additional.None? ==> r == Failure(IllegalArgumentException(NullDeserializersMessage))
    ensures additional.Some? && f.runtimeClass.Subclass? ==>
              r == Failure(IllegalStateException(SubtypeMessage(f.runtimeClass.className)))
    ensures r.Success? <==> additional.Some? && f.runtimeClass == CustomFactoryClass
    ensures r.Success? ==>
              && r.value.runtimeClass == CustomFactoryClass
              && |r.value.additionalDeserializers| == |f.additionalDeserializers| + 1
              && multiset(r.value.additionalDeserializers)
                 == multiset(f.additionalDeserializers) + multiset{additional.value}
              && r.value.directClassMappings.None? && r.value.mixInAnnotations.None?
  {
    if additional.None? then
      Failure(IllegalArgumentException(NullDeserializersMessage))
    else if f.runtimeClass != CustomFactoryClass then
      Failure(IllegalStateException(SubtypeMessage(f.runtimeClass.className)))
    else
      var s := ArrayBuilders.InsertInList(f.additionalDeserializers, additional.value, insertAt);
      Success(Construct(CustomFactoryClass, s))
  }

  /* ---------------------------------------------------------------------
     Configuration mutators
     --------------------------------------------------------------------- */

  /** Maps exactly `forClass` to `deser` (possibly null), creating the direct
      map if needed and replacing any earlier entry for that class. */
  function AddSpecificMapping<D, X>(f: Factory<D, X>, forClass: Class, deser: Option<D>): (g: Factory<D, X>)
    ensures g.directClassMappings.Some?
    ensures Entry(g, KeyOf(forClass)) == Some(deser)
    ensures forall k :: k != KeyOf(forClass) ==> Entry(g, k) == Entry(f, k)
    ensures g.mixInAnnotations == f.mixInAnnotations
    ensures g.runtimeClass == f.runtimeClass
    ensures g.additionalDeserializers == f.additionalDeserializers
  {
    var m := if f.directClassMappings.None? then map[] else f.directClassMappings.value;
    f.(directClassMappings := Some(m[KeyOf(forClass) := deser]))
  }

  /** Records that `classWithMixIns` (possibly null) supplies mix-in
      annotations for `destinationClass`, creating the mix-in map if needed. */
  function AddMixInAnnotationMapping<D, X>(f: Factory<D, X>, destinationClass: Class, classWithMixIns: Option<Class>)
    : (g: Factory<D, X>)
    ensures g.mixInAnnotations.Some?
    ensures MixInEntry(g, KeyOf(destinationClass)) == Some(classWithMixIns)
    ensures forall k :: k != KeyOf(destinationClass) ==> MixInEntry(g, k) == MixInEntry(f, k)
    ensures g.directClassMappings == f.directClassMappings
    ensures g.runtimeClass == f.runtimeClass
    ensures g.additionalDeserializers == f.additionalDeserializers
  {
    var m := if f.mixInAnnotations.None? then map[] else f.mixInAnnotations.value;
    f.(mixInAnnotations := Some(m[KeyOf(destinationClass) := classWithMixIns]))
  }

  /* ---------------------------------------------------------------------
     Entry points: override first, otherwise delegate
     --------------------------------------------------------------------- */

  function CreateBeanDeserializer<D, X, C, P, E>(
    f: Factory<D, X>, base: BaseChain<D, X, C, P, E>, config: C, t: JavaType, p: P): (r: Result<D, E>)
    ensures match Entry(f, KeyOf(t.rawClass))
            case Some(Some(d)) => r == Success(d)
            case _ => r == base.createBean(f.additionalDeserializers, config, t, p)
  {
    match DirectLookup(f, KeyOf(t.rawClass))
    case Some(d) => Success(d)
    case None => base.createBean(f.additionalDeserializers, config, t, p)
  }

  function CreateArrayDeserializer<D, X, C, P, E>(
    f: Factory<D, X>, base: BaseChain<D, X, C, P, E>, config: C, t: ArrayType, p: P): (r: Result<D, E>)
    ensures match Entry(f, KeyOf(t.rawClass))
            case Some(Some(d)) => r == Success(d)
            case _ => r == base.createArray(f.additionalDeserializers, config, t, p)
  {
    match DirectLookup(f, KeyOf(t.rawClass))
    case Some(d) => Success(d)
    case None => base.createArray(f.additionalDeserializers, config, t, p)
  }

  function CreateEnumDeserializer<D, X, C, P, E>(
    f: Factory<D, X>, base: BaseChain<D, X, C, P, E>, config: C, enumClass: Class, p: P): (r: Result<D, E>)
    ensures match Entry(f, KeyOf(enumClass))
            case Some(Some(d)) => r == Success(d)
            case _ => r == base.createEnum(f.additionalDeserializers, config, enumClass, p)
  {
    if f.directClassMappings.None? then
      base.createEnum(f.additionalDeserializers, config, enumClass, p)
    else
      match DirectLookup(f, KeyOf(enumClass))
      case Some(d) => Success(d)
      case None => base.createEnum(f.additionalDeserializers, config, enumClass, p)
  }
}
