# CustomDeserializerFactory — a Dafny model of Jackson's override-resolution layer

Jackson's `CustomDeserializerFactory` sits in front of the bean deserializer
factory chain. It lets setup code register:

- exact-class overrides (`addSpecificMapping`), which apply to that class only and never to its subtypes;
- mix-in annotation sources (`addMixInAnnotationMapping`).

It then answers the three entry points it overrides (bean, array and enum
deserializers) from the override map before delegating to the inherited chain.
Its copy-with-extension call, `withAdditionalDeserializers`, refuses a null
provider and refuses subclasses that did not override it. Otherwise it returns
a new factory built from the extended provider list alone. That copy goes
through the protected constructor, which creates neither map. The copy
therefore shares no maps with the receiver and has no overrides and no
mix-ins. A design in which overrides survive extension calls would differ here;
the model follows the code (`OverrideLostAfterExtension` states the difference
for every factory and base chain).

The model is functional. A factory is an immutable value of
`CustomDeserializerFactory.Factory`, which holds:

- the runtime class of the instance: exactly the custom factory, or a named subclass that does not override `withAdditionalDeserializers`;
- the sequence of additional providers (`Deserializers`);
- the direct map, as `Option<map<ClassKey, Option<D>>>`;
- the mix-in map, as `Option<map<ClassKey, Option<Class>>>`.

The outer `Option` is the Java field that stays `null` until the first
registration. The inner `Option` is a registered value, which may itself be
`null`. Deserializers (`D`), providers (`X`), the deserialization config (`C`),
the deserializer provider (`P`) and mapping errors (`E`) are type parameters.
The inherited chain is a `BaseChain` value of three functions, one per entry
point. Each function receives the factory's provider list and the caller's
arguments unchanged. Thrown exceptions are `Result.Failure` values.

Modules:

- `Wrappers` holds `Option` (null) and `Result` (may throw).
- `JavaTypes` holds `Class` (name plus defining class loader), `ClassKey` and `JavaType` (with `ArrayType`).
- `ArrayBuilders` holds the list-extension helper.
- `CustomDeserializerFactory` holds the state, the constructors, the mutators, the extension call and the three entry points.
- `FactoryProperties` holds lemmas that relate several calls.
- `Configuration` treats a whole configuration phase as a sequence of calls on one handle.
  - Registrations update the handle.
  - A successful extension call replaces the handle with the copy it returns.
  - The first call that throws ends the phase.
  - The module compares this forward run with backwards "latest registration wins" reference definitions: `ExpectedEntry` for the direct map and `ExpectedMixIn` for the mix-in map.

## Model

| member | source | states |
|---|---|---|
| JavaTypes.KeyOfInjective | src/mapper/java/org/codehaus/jackson/map/deser/CustomDeserializerFactory.java:180-181 | two class keys are equal exactly when they wrap the same class |
| ArrayBuilders.InsertInList | src/mapper/java/org/codehaus/jackson/map/deser/CustomDeserializerFactory.java:110 | the extended provider list is one longer and holds the old providers plus the new one (as a multiset), wherever the new one is placed |
| CustomDeserializerFactory.Construct | src/mapper/java/org/codehaus/jackson/map/deser/CustomDeserializerFactory.java:84-87 | the protected constructor keeps the given providers and runtime class and leaves both the direct map and the mix-in map absent (null) |
| CustomDeserializerFactory.NewFactory | src/mapper/java/org/codehaus/jackson/map/deser/CustomDeserializerFactory.java:80-82 | the public constructor keeps the runtime class, starts with no providers, and leaves both maps absent (null) |
| CustomDeserializerFactory.SubtypeMessage | src/mapper/java/org/codehaus/jackson/map/deser/CustomDeserializerFactory.java:105-107 | the subclass error message names the offending runtime class right after its fixed prefix |
| CustomDeserializerFactory.WithAdditionalDeserializers | src/mapper/java/org/codehaus/jackson/map/deser/CustomDeserializerFactory.java:90-112 | a null provider gives IllegalArgumentException; a provider given to a subclass gives IllegalStateException naming the subclass; it succeeds exactly otherwise, with a fresh factory of the exact class that holds the old providers plus the new one and whose direct map and mix-in map are both absent (null) |
| CustomDeserializerFactory.AddSpecificMapping | src/mapper/java/org/codehaus/jackson/map/deser/CustomDeserializerFactory.java:137-144 | the direct map now exists and sends the class's key to the given (possibly null) deserializer; every other key, the whole mix-in map (absent or not), the providers and the runtime class are unchanged |
| CustomDeserializerFactory.AddMixInAnnotationMapping | src/mapper/java/org/codehaus/jackson/map/deser/CustomDeserializerFactory.java:161-168 | the mix-in map now exists and sends the destination's key to the mix-in class; every other destination, the whole direct map (absent or not), the providers and the runtime class are unchanged |
| CustomDeserializerFactory.DirectLookup | src/mapper/java/org/codehaus/jackson/map/deser/CustomDeserializerFactory.java:184-189 | the lookup hits exactly when the direct map exists, holds the key and the stored deserializer is non-null, and then yields that deserializer |
| CustomDeserializerFactory.CreateBeanDeserializer | src/mapper/java/org/codehaus/jackson/map/deser/CustomDeserializerFactory.java:177-192 | a non-null entry for the raw class's key is returned without consulting the base chain; otherwise the base chain's bean result (value or error) is returned unchanged |
| CustomDeserializerFactory.CreateArrayDeserializer | src/mapper/java/org/codehaus/jackson/map/deser/CustomDeserializerFactory.java:195-206 | the same precedence for array types, falling back to the base chain's array entry point |
| CustomDeserializerFactory.CreateEnumDeserializer | src/mapper/java/org/codehaus/jackson/map/deser/CustomDeserializerFactory.java:211-224 | the same precedence keyed by the enum class itself, falling back to the base chain's enum entry point |
| FactoryProperties.SpecificMappingLastWriteWins | src/mapper/java/org/codehaus/jackson/map/deser/CustomDeserializerFactory.java:137-144 | registering a class twice is the same as registering only the second deserializer |
| FactoryProperties.MixInLastWriteWins | src/mapper/java/org/codehaus/jackson/map/deser/CustomDeserializerFactory.java:161-168 | registering a mix-in for the same destination twice is the same as registering only the second |
| FactoryProperties.SpecificMappingsCommute | src/mapper/java/org/codehaus/jackson/map/deser/CustomDeserializerFactory.java:137-144 | registrations for different classes can be made in either order with the same resulting factory |
| FactoryProperties.MixInsCommute | src/mapper/java/org/codehaus/jackson/map/deser/CustomDeserializerFactory.java:161-168 | mix-in registrations for different destinations can be made in either order with the same resulting factory |
| FactoryProperties.NoDirectMapDelegates | src/mapper/java/org/codehaus/jackson/map/deser/CustomDeserializerFactory.java:184-224 | while the direct map is absent, all three entry points return exactly what the base chain returns for the same arguments |
| FactoryProperties.OneRegistrationServesAllCategories | src/mapper/java/org/codehaus/jackson/map/deser/CustomDeserializerFactory.java:177-224 | one non-null registration for a class answers the bean, array and enum entry points for that class, whatever the base chain does |
| FactoryProperties.NullRegistrationDelegates | src/mapper/java/org/codehaus/jackson/map/deser/CustomDeserializerFactory.java:184-191 | a registered null is stored but is treated as a miss, so the base chain answers |
| FactoryProperties.OverrideDependsOnRawClassOnly | src/mapper/java/org/codehaus/jackson/map/deser/CustomDeserializerFactory.java:180-191 | two type descriptors with the same raw class get the same override (also through the enum entry point); without an override each goes to the base chain as given |
| FactoryProperties.ExtensionDropsOverrides | src/mapper/java/org/codehaus/jackson/map/deser/CustomDeserializerFactory.java:84-111 | extending an exact-class factory succeeds; the copy holds every old provider and the new one, and all three of its entry points delegate to the base chain with the extended list |
| FactoryProperties.OverrideLostAfterExtension | src/mapper/java/org/codehaus/jackson/map/deser/CustomDeserializerFactory.java:84-111 | for every exact-class factory with a non-null override for a class, the bean and enum entry points answer with that override before a successful extension call, and on the copy with the base chain's result for the extended providers |
| Configuration.RunMatchesExpectedMixIn | src/mapper/java/org/codehaus/jackson/map/deser/CustomDeserializerFactory.java:90-168 | after a configuration phase that throws nothing, each destination's mix-in entry is the latest mix-in registration of it since the last extension call, or the initial entry if there is neither |
| Configuration.RunMatchesExpectedEntry | src/mapper/java/org/codehaus/jackson/map/deser/CustomDeserializerFactory.java:90-168 | after a configuration phase that throws nothing, each key's direct-map entry is the latest registration of it since the last extension call, or the initial entry if there is neither |
| Configuration.ResolutionAfterConfiguration | src/mapper/java/org/codehaus/jackson/map/deser/CustomDeserializerFactory.java:90-224 | after such a phase, every entry point returns the latest registration for its class since the last extension call, when that registration is non-null; otherwise (none, or a later null registration replaced it) the base chain's result with the accumulated providers |
| Configuration.ProvidersAccumulate | src/mapper/java/org/codehaus/jackson/map/deser/CustomDeserializerFactory.java:90-112 | after such a phase, the providers are the initial ones plus every provider the extension calls added, as a multiset |
| Configuration.FailureKeepsPriorState | src/mapper/java/org/codehaus/jackson/map/deser/CustomDeserializerFactory.java:90-108 | when a call throws, the handle is exactly the state that the calls before it produced without error, and that one call raised the reported error |
| Configuration.SubclassCannotExtend | src/mapper/java/org/codehaus/jackson/map/deser/CustomDeserializerFactory.java:104-108 | on an instance of a subclass that does not override withAdditionalDeserializers, any configuration phase that contains an extension call throws, at its first extension call, with IllegalArgumentException if that call's provider is null and otherwise IllegalStateException naming the subclass |

## Left out

- The base factory chain (`BeanDeserializerFactory`, `BasicDeserializerFactory`) is not part of this model. It is the `BaseChain` parameter: three arbitrary functions of the provider list and the call's arguments.
- `ArrayBuilders.insertInList` is not part of this model. `InsertInList` takes the insertion position as a parameter (`insertAt`), and no contract depends on where the new provider lands.
- `NO_DESERIALIZERS` is inherited and not part of this model. It is taken to be the empty list.
- How introspection consumes the mix-in map (supertype walking, annotation merging) lies outside this class. The model only stores the mix-in entries.
- `DeserializationConfig` and `DeserializerProvider` are opaque type parameters that are passed through untouched.
- Java generics and the unchecked cast in `addSpecificMapping` are not modelled. A deserializer is one opaque type `D`.
- Null `Class` arguments are not modelled. `ClassKey`'s constructor is not part of this model, so `Class` values are never null.
- Thread safety ("configure before sharing") is a usage rule rather than sequential behaviour. The model has no shared mutable state: resolution is a pure function of the factory value, so reads cannot interfere with each other.
- Subclasses that override any member modelled here are not modelled. `Subclass` stands for a subclass that inherits all of them, `withAdditionalDeserializers` included.
- Collection, map and tree entry points appear only as comments in the source. They are not modelled.
