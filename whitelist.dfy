/**
 * The package-set whitelist that the pipeline script sandbox consults before an
 * untrusted script may touch a reflective member of a host class.
 *
 * The sandbox resolves the member and asks one of seven entry points (method,
 * constructor, static method, field get, field set, static field get, static
 * field set). Every one of them answers by looking up the package of the
 * member's DECLARING class, by exact string equality, in a set of package
 * names fixed when the whitelist is created. Reflection is abstracted to value
 * descriptors; the receiver, the arguments and the assigned value are carried
 * along so that the model can state that the verdict ignores them.
 */
module PipelinesWhitelist {
  import opened Wrappers

  /** A loaded class: its name and its package name. `None` is the default
      package, for which `Class.getPackage()` returns null on Java 8. */
  datatype ClassRef = ClassRef(name: string, package: Option<string>)

  /** A resolved method or static method. */
  datatype MethodRef = MethodRef(declaringClass: ClassRef, name: string)

  /** A resolved constructor. */
  datatype ConstructorRef = ConstructorRef(declaringClass: ClassRef)

  /** A resolved instance or static field. */
  datatype FieldRef = FieldRef(declaringClass: ClassRef, name: string)

  /** A runtime object handed over by the sandbox: a receiver, an argument or
      the value being assigned to a field. */
  datatype Value = Null | Object(runtimeClass: ClassRef, identity: nat)

  /** What an entry point does: return a verdict, or throw the
      NullPointerException raised by `getPackage().getName()` for a class in the
      default package. */
  datatype Decision = Returns(permitted: bool) | ThrowsNullPointer

  /** The whitelist object: its set of trusted package names. The set is
      created with the object and never changes, so every query is a pure
      function of the whitelist value and the query. */
  datatype Whitelist = Whitelist(validPackages: set<string>)

  /** The six packages the plugin trusts. */
  const Fabric8Packages: set<string> := {
    "io.fabric8.utils",
    "org.apache.maven.model",
    "org.jenkinsci.plugins.fabric8",
    "org.jenkinsci.plugins.fabric8.helpers",
    "org.jenkinsci.plugins.fabric8.model",
    "org.jenkinsci.plugins.fabric8.steps"
  }

  /** The whitelist as the plugin constructs it. */
  const Fabric8: Whitelist := Whitelist(Fabric8Packages)

  /** The class lives in a named package that is exactly one of the trusted names. */
  predicate Trusted(w: Whitelist, c: ClassRef)
  {
    c.package.Some? && c.package.value in w.validPackages
  }

  /** `permitClass`: exact membership of the class's package name. */
  function PermitClass(w: Whitelist, c: ClassRef): (d: Decision)
    ensures d == ThrowsNullPointer <==> c.package == None
    ensures d == Returns(true) <==> Trusted(w, c)
    ensures d == Returns(false) <==> c.package.Some? && c.package.value !in w.validPackages
  {
    match c.package
    case None => ThrowsNullPointer
    case Some(p) => Returns(p in w.validPackages)
  }

  /** `permitsMethod`: an instance method called on `receiver` with `args`. */
  function PermitsMethod(w: Whitelist, m: MethodRef, receiver: Value, args: seq<Value>): (d: Decision)
    ensures d == Returns(true) <==> Trusted(w, m.declaringClass)
    ensures d == ThrowsNullPointer <==> m.declaringClass.package == None
  {
    PermitClass(w, m.declaringClass)
  }

  /** `permitsConstructor`: a constructor called with `args`. */
  function PermitsConstructor(w: Whitelist, c: ConstructorRef, args: seq<Value>): (d: Decision)
    ensures d == Returns(true) <==> Trusted(w, c.declaringClass)
    ensures d == ThrowsNullPointer <==> c.declaringClass.package == None
  {
    PermitClass(w, c.declaringClass)
  }

  /** `permitsStaticMethod`: a static method called with `args`. */
  function PermitsStaticMethod(w: Whitelist, m: MethodRef, args: seq<Value>): (d: Decision)
    ensures d == Returns(true) <==> Trusted(w, m.declaringClass)
    ensures d == ThrowsNullPointer <==> m.declaringClass.package == None
  {
    PermitClass(w, m.declaringClass)
  }

  /** `permitsFieldGet`: reading an instance field of `receiver`. */
  function PermitsFieldGet(w: Whitelist, f: FieldRef, receiver: Value): (d: Decision)
    ensures d == Returns(true) <==> Trusted(w, f.declaringClass)
    ensures d == ThrowsNullPointer <==> f.declaringClass.package == None
  {
    PermitClass(w, f.declaringClass)
  }

  /** `permitsFieldSet`: assigning `value` (possibly null) to a field of `receiver`. */
  function PermitsFieldSet(w: Whitelist, f: FieldRef, receiver: Value, value: Value): (d: Decision)
    ensures d == Returns(true) <==> Trusted(w, f.declaringClass)
    ensures d == ThrowsNullPointer <==> f.declaringClass.package == None
  {
    PermitClass(w, f.declaringClass)
  }

  /** `permitsStaticFieldGet`: reading a static field. */
  function PermitsStaticFieldGet(w: Whitelist, f: FieldRef): (d: Decision)
    ensures d == Returns(true) <==> Trusted(w, f.declaringClass)
    ensures d == ThrowsNullPointer <==> f.declaringClass.package == None
  {
    PermitClass(w, f.declaringClass)
  }

  /** `permitsStaticFieldSet`: assigning `value` (possibly null) to a static field. */
  function PermitsStaticFieldSet(w: Whitelist, f: FieldRef, value: Value): (d: Decision)
    ensures d == Returns(true) <==> Trusted(w, f.declaringClass)
    ensures d == ThrowsNullPointer <==> f.declaringClass.package == None
  {
    PermitClass(w, f.declaringClass)
  }

  /** One access attempt as the sandbox presents it: which entry point it is
      routed to, the resolved member, and the runtime values involved. */
  datatype Access =
    | CallMethod(meth: MethodRef, receiver: Value, args: seq<Value>)
    | CallConstructor(ctor: ConstructorRef, args: seq<Value>)
    | CallStaticMethod(meth: MethodRef, args: seq<Value>)
    | GetField(field: FieldRef, receiver: Value)
    | SetField(field: FieldRef, receiver: Value, value: Value)
    | GetStaticField(field: FieldRef)
    | SetStaticField(field: FieldRef, value: Value)

  /** The class that declares the member an access touches. */
  function DeclaringClass(a: Access): ClassRef
  {
    match a
    case CallMethod(m, _, _) => m.declaringClass
    case CallConstructor(c, _) => c.declaringClass
    case CallStaticMethod(m, _) => m.declaringClass
    case GetField(f, _) => f.declaringClass
    case SetField(f, _, _) => f.declaringClass
    case GetStaticField(f) => f.declaringClass
    case SetStaticField(f, _) => f.declaringClass
  }

  /** The same access with every runtime value erased: no receiver, no
      arguments, a null assigned value. */
  function Erased(a: Access): (e: Access)
    ensures DeclaringClass(e) == DeclaringClass(a)
  {
    match a
    case CallMethod(m, _, _) => CallMethod(m, Null, [])
    case CallConstructor(c, _) => CallConstructor(c, [])
    case CallStaticMethod(m, _) => CallStaticMethod(m, [])
    case GetField(f, _) => GetField(f, Null)
    case SetField(f, _, _) => SetField(f, Null, Null)
    case GetStaticField(f) => GetStaticField(f)
    case SetStaticField(f, _) => SetStaticField(f, Null)
  }

  /** The sandbox's dispatch of an access to the matching entry point. */
  function Ask(w: Whitelist, a: Access): Decision
  {
    match a
    case CallMethod(m, r, args) => PermitsMethod(w, m, r, args)
    case CallConstructor(c, args) => PermitsConstructor(w, c, args)
    case CallStaticMethod(m, args) => PermitsStaticMethod(w, m, args)
    case GetField(f, r) => PermitsFieldGet(w, f, r)
    case SetField(f, r, v) => PermitsFieldSet(w, f, r, v)
    case GetStaticField(f) => PermitsStaticFieldGet(w, f)
    case SetStaticField(f, v) => PermitsStaticFieldSet(w, f, v)
  }

  /** Every entry point answers exactly what `permitClass` answers for the
      member's declaring class. */
  lemma AskIsPermitClass(w: Whitelist, a: Access)
    ensures Ask(w, a) == PermitClass(w, DeclaringClass(a))
  {
  }

  /** Uniformity across access kinds: two accesses whose members share a
      declaring class get the same verdict, whatever their kinds. */
  lemma SameDeclaringClassSameVerdict(w: Whitelist, a1: Access, a2: Access)
    requires DeclaringClass(a1) == DeclaringClass(a2)
    ensures Ask(w, a1) == Ask(w, a2)
  {
    AskIsPermitClass(w, a1);
    AskIsPermitClass(w, a2);
  }

  /** The verdict does not depend on the receiver, the arguments or the
      assigned value. */
  lemma VerdictIgnoresValues(w: Whitelist, a: Access)
    ensures Ask(w, a) == Ask(w, Erased(a))
  {
    SameDeclaringClassSameVerdict(w, a, Erased(a));
  }

  /** Default deny: a member declared in a named package outside the set is
      refused by every entry point, and nothing outside the set is ever
      permitted. */
  lemma FailClosed(w: Whitelist, a: Access)
    ensures (DeclaringClass(a).package.Some? && DeclaringClass(a).package.value !in w.validPackages)
              ==> Ask(w, a) == Returns(false)
    ensures Ask(w, a) == Returns(true) ==> Trusted(w, DeclaringClass(a))
  {
    AskIsPermitClass(w, a);
  }

  /** Trusting a further package changes the verdict for classes of that
      package only: trusting a child package does not trust its parent, and
      trusting a parent does not trust its children. */
  lemma TrustIsPerPackage(w: Whitelist, q: string, c: ClassRef)
    requires c.package != Some(q)
    ensures PermitClass(Whitelist(w.validPackages + {q}), c) == PermitClass(w, c)
  {
  }

  /** For the plugin's own whitelist, a named package is permitted exactly
      when it is one of the six names. */
  lemma Fabric8PermitsExactlySix(c: ClassRef)
    requires c.package.Some?
    ensures PermitClass(Fabric8, c) == Returns(true) <==>
              c.package.value == "io.fabric8.utils" ||
              c.package.value == "org.apache.maven.model" ||
              c.package.value == "org.jenkinsci.plugins.fabric8" ||
              c.package.value == "org.jenkinsci.plugins.fabric8.helpers" ||
              c.package.value == "org.jenkinsci.plugins.fabric8.model" ||
              c.package.value == "org.jenkinsci.plugins.fabric8.steps"
  {
  }

  /** Matching is exact, not by prefix: the whitelist's own package
      `org.jenkinsci.plugins.fabric8.dsl` is refused although its parent
      `org.jenkinsci.plugins.fabric8` is trusted. */
  lemma OwnPackageNotTrusted()
    ensures PermitClass(Fabric8, ClassRef("org.jenkinsci.plugins.fabric8.Helper",
                                          Some("org.jenkinsci.plugins.fabric8"))) == Returns(true)
    ensures PermitClass(Fabric8, ClassRef("org.jenkinsci.plugins.fabric8.dsl.Fabric8PipelinesWhitelist",
                                          Some("org.jenkinsci.plugins.fabric8.dsl"))) == Returns(false)
  {
    var own := "org.jenkinsci.plugins.fabric8.dsl";
    assert |own| == 33;
    forall p | p in Fabric8Packages ensures p != own {
      assert |p| != 33;
    }
  }
}
