/** The configuration phase as a sequence of calls on one factory handle.
    Registrations change the handle in place; a successful extension call
    replaces the handle with the copy it returns; the first call that throws
    ends the phase and leaves the handle as it was before that call. */
module Configuration {
  import opened Wrappers
  import opened JavaTypes
  import opened CustomDeserializerFactory

  datatype ConfigCall<D, X> =
    | MapClass(forClass: Class, deser: Option<D>)
    | MixIn(destinationClass: Class, classWithMixIns: Option<Class>)
    | Extend(additional: Option<X>, insertAt: nat)

  /** The handle after a run, and the error that stopped it, if any. */
  datatype Session<D, X> = Session(factory: Factory<D, X>, failure: Option<ConfigError>)

  function Step<D, X(==)>(f: Factory<D, X>, call: ConfigCall<D, X>): Result<Factory<D, X>, ConfigError>
  {
    match call
    case MapClass(c, d) => Success(AddSpecificMapping(f, c, d))
    case MixIn(dest, src) => Success(AddMixInAnnotationMapping(f, dest, src))
    case Extend(x, at) => WithAdditionalDeserializers(f, x, at)
  }

  function Run<D, X(==)>(f: Factory<D, X>, calls: seq<ConfigCall<D, X>>): Session<D, X>
    decreases |calls|
  {
    if |calls| == 0 then Session(f, None)
    else match Step(f, calls[0])
      case Failure(e) => Session(f, Some(e))
      case Success(g) => Run(g, calls[1..])
  }

  /** Reference definition, read from the last call backwards: the direct-map
      entry for `k` is set by the latest registration of `k`, unless a later
      extension call produced a fresh factory without a direct map; with
      neither, it is the initial entry `init`. */
  function ExpectedEntry<D, X>(init: Option<Option<D>>, calls: seq<ConfigCall<D, X>>, k: ClassKey): Option<Option<D>>
    decreases |calls|
  {
    if |calls| == 0 then init
    else match calls[|calls| - 1]
      case MapClass(c, d) => if KeyOf(c) == k then Some(d) else ExpectedEntry(init, calls[..|calls| - 1], k)
      case MixIn(_, _) => ExpectedEntry(init, calls[..|calls| - 1], k)
      case Extend(_, _) => None
  }

  /** Reference definition for the mix-in map, read backwards like
      `ExpectedEntry`: the latest mix-in registration for destination key `k`,
      unless a later extension call produced a factory without mix-ins. */
  function ExpectedMixIn<D, X>(init: Option<Option<Class>>, calls: seq<ConfigCall<D, X>>, k: ClassKey)
    : Option<Option<Class>>
    decreases |calls|
  {
    if |calls| == 0 then init
    else match calls[|calls| - 1]
      case MixIn(dest, src) => if KeyOf(dest) == k then Some(src) else ExpectedMixIn(init, calls[..|calls| - 1], k)
      case MapClass(_, _) => ExpectedMixIn(init, calls[..|calls| - 1], k)
      case Extend(_, _) => None
  }

  /** The providers that the extension calls of `calls` add. */
  function Added<D, X(==)>(calls: seq<ConfigCall<D, X>>): multiset<X>
    decreases |calls|
  {
    if |calls| == 0 then multiset{}
    else
      (match calls[0]
       case Extend(Some(x), _) => multiset{x}
       case _ => multiset{})
      + Added(calls[1..])
  }

  /** Reading the calls backwards composes over concatenation. */
  lemma {:induction false} ExpectedEntryAppend<D, X>(
    init: Option<Option<D>>, a: seq<ConfigCall<D, X>>, b: seq<ConfigCall<D, X>>, k: ClassKey)
    ensures ExpectedEntry(init, a + b, k) == ExpectedEntry(ExpectedEntry(init, a, k), b, k)
    decreases |b|
  {
    if |b| == 0 {
      assert a + b == a;
    } else {
      var b' := b[..|b| - 1];
      assert (a + b)[..|a + b| - 1] == a + b';
      assert (a + b)[|a + b| - 1] == b[|b| - 1];
      ExpectedEntryAppend(init, a, b', k);
    }
  }

  lemma {:induction false} ExpectedMixInAppend<D, X>(
    init: Option<Option<Class>>, a: seq<ConfigCall<D, X>>, b: seq<ConfigCall<D, X>>, k: ClassKey)
    ensures ExpectedMixIn(init, a + b, k) == ExpectedMixIn(ExpectedMixIn(init, a, k), b, k)
    decreases |b|
  {
    if |b| == 0 {
      assert a + b == a;
    } else {
      var b' := b[..|b| - 1];
      assert (a + b)[..|a + b| - 1] == a + b';
      assert (a + b)[|a + b| - 1] == b[|b| - 1];
      ExpectedMixInAppend(init, a, b', k);
    }
  }

  /** One successful call moves the mix-in entry for `k` as the reference says. */
  lemma StepMatchesExpectedMixIn<D, X>(f: Factory<D, X>, call: ConfigCall<D, X>, k: ClassKey)
    requires Step(f, call).Success?
    ensures MixInEntry(Step(f, call).value, k) == ExpectedMixIn(MixInEntry(f, k), [call], k)
  {
  }

  /** Last-write-wins for mix-ins over a whole configuration phase: after a
      run that throws nothing, each destination's mix-in entry is the one the
      backwards reading of the calls predicts. */
  lemma {:induction false} RunMatchesExpectedMixIn<D, X>(f: Factory<D, X>, calls: seq<ConfigCall<D, X>>, k: ClassKey)
    requires Run(f, calls).failure.None?
    ensures MixInEntry(Run(f, calls).factory, k) == ExpectedMixIn(MixInEntry(f, k), calls, k)
    decreases |calls|
  {
    if |calls| > 0 {
      var g := Step(f, calls[0]).value;
      StepMatchesExpectedMixIn(f, calls[0], k);
      RunMatchesExpectedMixIn(g, calls[1..], k);
      assert [calls[0]] + calls[1..] == calls;
      ExpectedMixInAppend(MixInEntry(f, k), [calls[0]], calls[1..], k);
    }
  }

  /** One successful call moves the entry for `k` as the reference says. */
  lemma StepMatchesExpectedEntry<D, X>(f: Factory<D, X>, call: ConfigCall<D, X>, k: ClassKey)
    requires Step(f, call).Success?
    ensures Entry(Step(f, call).value, k) == ExpectedEntry(Entry(f, k), [call], k)
  {
  }

  /** Last-write-wins over a whole configuration phase: after a run that
      throws nothing, the direct-map entry for every key is the one the
      backwards reading of the calls predicts. */
  lemma {:induction false} RunMatchesExpectedEntry<D, X>(f: Factory<D, X>, calls: seq<ConfigCall<D, X>>, k: ClassKey)
    requires Run(f, calls).failure.None?
    ensures Entry(Run(f, calls).factory, k) == ExpectedEntry(Entry(f, k), calls, k)
    decreases |calls|
  {
    if |calls| > 0 {
      var g := Step(f, calls[0]).value;
      StepMatchesExpectedEntry(f, calls[0], k);
      RunMatchesExpectedEntry(g, calls[1..], k);
      assert [calls[0]] + calls[1..] == calls;
      ExpectedEntryAppend(Entry(f, k), [calls[0]], calls[1..], k);
    }
  }

  /** Resolution after a configuration phase: every entry point returns the
      latest registration for the raw class since the last extension call when
      that registration is non-null; otherwise (no such registration, or a
      later null one replaced it) the base chain decides, seeing the providers
      the phase accumulated. */
  lemma ResolutionAfterConfiguration<D, X, C, P, E>(
    f: Factory<D, X>, calls: seq<ConfigCall<D, X>>, base: BaseChain<D, X, C, P, E>, config: C,
    t: JavaType, at: ArrayType, enumClass: Class, p: P)
    requires Run(f, calls).failure.None?
    ensures var g := Run(f, calls).factory;
            match ExpectedEntry(Entry(f, KeyOf(t.rawClass)), calls, KeyOf(t.rawClass))
            case Some(Some(d)) => CreateBeanDeserializer(g, base, config, t, p) == Success(d)
            case _ => CreateBeanDeserializer(g, base, config, t, p)
                      == base.createBean(g.additionalDeserializers, config, t, p)
    ensures var g := Run(f, calls).factory;
            match ExpectedEntry(Entry(f, KeyOf(at.rawClass)), calls, KeyOf(at.rawClass))
            case Some(Some(d)) => CreateArrayDeserializer(g, base, config, at, p) == Success(d)
            case _ => CreateArrayDeserializer(g, base, config, at, p)
                      == base.createArray(g.additionalDeserializers, config, at, p)
    ensures var g := Run(f, calls).factory;
            match ExpectedEntry(Entry(f, KeyOf(enumClass)), calls, KeyOf(enumClass))
            case Some(Some(d)) => CreateEnumDeserializer(g, base, config, enumClass, p) == Success(d)
            case _ => CreateEnumDeserializer(g, base, config, enumClass, p)
                      == base.createEnum(g.additionalDeserializers, config, enumClass, p)
  {
    RunMatchesExpectedEntry(f, calls, KeyOf(t.rawClass));
    RunMatchesExpectedEntry(f, calls, KeyOf(at.rawClass));
    RunMatchesExpectedEntry(f, calls, KeyOf(enumClass));
  }

  /** Extension calls lose no provider: after a run that throws nothing, the
      handle holds the initial providers plus every one added, as a multiset. */
  lemma {:induction false} ProvidersAccumulate<D, X>(f: Factory<D, X>, calls: seq<ConfigCall<D, X>>)
    requires Run(f, calls).failure.None?
    ensures multiset(Run(f, calls).factory.additionalDeserializers)
            == multiset(f.additionalDeserializers) + Added(calls)
    decreases |calls|
  {
    if |calls| > 0 {
      var g := Step(f, calls[0]).value;
      ProvidersAccumulate(g, calls[1..]);
    }
  }

  /** A call that throws changes nothing: the run stops at some call `i`,
      every call before `i` ran without error, the handle is exactly the one
      they produced, and call `i` alone raised the reported error. */
  lemma {:induction false} FailureKeepsPriorState<D, X>(f: Factory<D, X>, calls: seq<ConfigCall<D, X>>)
    requires Run(f, calls).failure.Some?
    ensures exists i :: 0 <= i < |calls|
              && Run(f, calls[..i]) == Session(Run(f, calls).factory, None)
              && Step(Run(f, calls).factory, calls[i]) == Failure(Run(f, calls).failure.value)
    decreases |calls|
  {
    var s := Run(f, calls);
    match Step(f, calls[0])
    case Failure(e) =>
      assert calls[..0] == [];
      assert Run(f, calls[..0]) == Session(s.factory, None);
    case Success(g) =>
      FailureKeepsPriorState(g, calls[1..]);
      var j :| 0 <= j < |calls[1..]|
               && Run(g, calls[1..][..j]) == Session(s.factory, None)
               && Step(s.factory, calls[1..][j]) == Failure(s.failure.value);
      var pre := calls[..j + 1];
      assert pre[0] == calls[0] && pre[1..] == calls[1..][..j];
      assert Run(f, pre) == Session(s.factory, None);
      assert calls[j + 1] == calls[1..][j];
  }

  /** A subclass that did not override the extension call can never get past
      it: the run stops at its first extension call, with IllegalArgumentException
      for a null provider and otherwise IllegalStateException naming the subclass. */
  lemma {:induction false} SubclassCannotExtend<D, X>(f: Factory<D, X>, calls: seq<ConfigCall<D, X>>, i: nat)
    requires f.runtimeClass.Subclass?
    requires i < |calls| && calls[i].Extend?
    ensures Run(f, calls).failure.Some?
    ensures exists j :: 0 <= j <= i && calls[j].Extend?
              && (forall l :: 0 <= l < j ==> !calls[l].Extend?)
              && Run(f, calls).failure.value
                 == if calls[j].additional.None? then IllegalArgumentException(NullDeserializersMessage)
                    else IllegalStateException(SubtypeMessage(f.runtimeClass.className))
    decreases |calls|
  {
    if calls[0].Extend? {
      assert 0 <= 0 <= i && calls[0].Extend?;
    } else {
      var g := Step(f, calls[0]).value;
      assert calls[1..][i - 1] == calls[i];
      SubclassCannotExtend(g, calls[1..], i - 1);
      var j :| 0 <= j <= i - 1 && calls[1..][j].Extend?
                && (forall l :: 0 <= l < j ==> !calls[1..][l].Extend?)
                && Run(g, calls[1..]).failure.value
                   == if calls[1..][j].additional.None? then IllegalArgumentException(NullDeserializersMessage)
                      else IllegalStateException(SubtypeMessage(g.runtimeClass.className));
      assert calls[j + 1] == calls[1..][j];
      forall l | 0 <= l < j + 1
        ensures !calls[l].Extend?
      {
        if l > 0 { assert calls[l] == calls[1..][l - 1]; }
      }
    }
  }
}
