/** Java classes, the `ClassKey` wrapper used as a hash-map key, and the
    `JavaType` descriptors the factory is asked to resolve. */
module JavaTypes {

  /** A loaded Java class: its fully qualified name together with the class
      loader that defined it. Classes of the same name from different loaders
      are different classes. */
  datatype Class = Class(loader: nat, name: string)

  /** The map key derived from a class; two keys are equal exactly when they
      wrap the same class. */
  datatype ClassKey = ClassKey(keyClass: Class)

  /** `new ClassKey(cls)`: total and pure. */
  function KeyOf(cls: Class): ClassKey
  {
    ClassKey(cls)
  }

  /** Keys compare by class: equal keys exactly for equal classes. */
  lemma KeyOfInjective(a: Class, b: Class)
    ensures KeyOf(a) == KeyOf(b) <==> a == b
  {
  }

  /** A resolved type descriptor. Generic parameters and array content types
      are part of the descriptor, but only `rawClass` identifies it for lookup. */
  datatype JavaType =
    | SimpleType(rawClass: Class, typeParameters: seq<JavaType>)
    | ArrayOf(rawClass: Class, contentType: JavaType)

  /** The descriptors accepted by the array entry point. */
  type ArrayType = t: JavaType | t.ArrayOf?
    witness ArrayOf(Class(0, "[Ljava.lang.Object;"), SimpleType(Class(0, "java.lang.Object"), []))
}
