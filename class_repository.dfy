/** ClassRepository: a table of parsed classes keyed by dotted class name,
    consulted before the class bytes are read. Reading the bytes (from the
    classpath roots when given, otherwise from the system class loader) and
    parsing them with ASM are one oracle here: a map from resource path to
    the class those bytes parse to; a path outside it has no bytes. */
module ClassRepositories {
  import opened JavaLang
  import opened Types

  /** Object.class.getName(). */
  const ObjectClassName: string := "java.lang.Object"

  datatype ClassNotFoundException = ClassNotFoundException(className: string)

  /** Resource path -> the class its bytes parse to. */
  type ClassSource = map<string, ClassInfo>

  /** Array descriptors (section 4.3.2 of the JVM Specification) start with '['. */
  predicate IsArrayName(name: string) {
    StartsWith(name, "[")
  }

  /** The table key: the name with every '/' turned into '.'. */
  function CacheKey(name: string): (k: string)
    ensures |k| == |name| && '/' !in k
    ensures forall i :: 0 <= i < |name| && name[i] == '/' ==> k[i] == '.'
    ensures forall i :: 0 <= i < |name| && name[i] != '/' ==> k[i] == name[i]
  {
    var k := Replace(name, '/', '.');
    assert forall i :: 0 <= i < |k| ==> k[i] != '/';
    k
  }

  /** The resource the bytes are read from: every '.' turned into '/',
      then ".class". */
  function ClassResource(name: string): (r: string)
    ensures |r| == |name| + 6 && r[|name|..] == ".class"
    ensures '.' !in r[..|name|]
    ensures forall i :: 0 <= i < |name| && name[i] == '.' ==> r[i] == '/'
    ensures forall i :: 0 <= i < |name| && name[i] != '.' ==> r[i] == name[i]
  {
    var stem := Replace(name, '.', '/');
    assert forall i :: 0 <= i < |stem| ==> stem[i] != '.';
    assert (stem + ".class")[..|name|] == stem;
    stem + ".class"
  }

  /** Reading the resource: from the classpath roots if there are any,
      otherwise from the system class loader. */
  function ReadClass(roots: Option<ClassSource>, system: ClassSource, resource: string): (c: Option<ClassInfo>)
    ensures roots.Some? ==> c == if resource in roots.value then Some(roots.value[resource]) else None
    ensures roots.None? ==> c == if resource in system then Some(system[resource]) else None
  {
    var source := if roots.Some? then roots.value else system;
    if resource in source then Some(source[resource]) else None
  }

  /** inputStreamForClass followed by parseClass. */
  function LoadClass(roots: Option<ClassSource>, system: ClassSource, name: string): (r: Result<ClassInfo, ClassNotFoundException>)
    ensures r.Failure? <==> ReadClass(roots, system, ClassResource(name)).None?
    ensures r.Failure? ==> r.error == ClassNotFoundException(name)
    ensures r.Success? ==> Some(r.value) == ReadClass(roots, system, ClassResource(name))
  {
    match ReadClass(roots, system, ClassResource(name))
    case Some(c) => Success(c)
    case None => Failure(ClassNotFoundException(name))
  }

  /** getClass(String) over a given table: what it answers. */
  function Lookup(classes: map<string, ClassInfo>, roots: Option<ClassSource>, system: ClassSource, name: string)
    : (r: Result<ClassInfo, ClassNotFoundException>)
    ensures !IsArrayName(name) && CacheKey(name) in classes ==> r == Success(classes[CacheKey(name)])
    ensures !IsArrayName(name) && CacheKey(name) !in classes ==> r == LoadClass(roots, system, name)
    decreases if IsArrayName(name) then 1 else 0
  {
    if IsArrayName(name) then
      assert !IsArrayName(ObjectClassName) by { assert ObjectClassName[0] == 'j'; }
      Lookup(classes, roots, system, ObjectClassName)
    else if CacheKey(name) in classes then Success(classes[CacheKey(name)])
    else LoadClass(roots, system, name)
  }

  /** getClass(String) over a given table: the table it leaves. Parsing
      hands the repository to the class builder, which registers the class
      it builds under that class's own name; a cache hit or a failure leaves
      the table as it was. */
  function TableAfter(classes: map<string, ClassInfo>, roots: Option<ClassSource>, system: ClassSource, name: string)
    : (t: map<string, ClassInfo>)
    ensures Lookup(classes, roots, system, name).Failure? ==> t == classes
    ensures !IsArrayName(name) && CacheKey(name) in classes ==> t == classes
    ensures !IsArrayName(name) && CacheKey(name) !in classes && Lookup(classes, roots, system, name).Success? ==>
              var c := Lookup(classes, roots, system, name).value;
              t == classes[c.name := c]
    ensures Lookup(classes, roots, system, name).Success? ==>
              var c := Lookup(classes, roots, system, name).value;
              t == classes || t == classes[c.name := c]
    decreases if IsArrayName(name) then 1 else 0
  {
    if IsArrayName(name) then
      assert !IsArrayName(ObjectClassName) by { assert ObjectClassName[0] == 'j'; }
      TableAfter(classes, roots, system, ObjectClassName)
    else if CacheKey(name) in classes then classes
    else match LoadClass(roots, system, name)
      case Success(c) => classes[c.name := c]
      case Failure(_) => classes
  }

  class ClassRepository {
    var classes: map<string, ClassInfo>
    const classpathRoots: Option<ClassSource>
    const systemResources: ClassSource

    /** ClassRepository(): classes come from the system class loader. */
    constructor (systemResources: ClassSource)
      ensures classes == map[] && classpathRoots == None && this.systemResources == systemResources
    {
      classes := map[];
      classpathRoots := None;
      this.systemResources := systemResources;
    }

    /** ClassRepository(ClasspathRootGroup). */
    constructor WithRoots(roots: ClassSource, systemResources: ClassSource)
      ensures classes == map[] && classpathRoots == Some(roots) && this.systemResources == systemResources
    {
      classes := map[];
      classpathRoots := Some(roots);
      this.systemResources := systemResources;
    }

    function Resolve(name: string): Result<ClassInfo, ClassNotFoundException>
      reads this
    {
      Lookup(classes, classpathRoots, systemResources, name)
    }

    /** getClass(String): answers from the table when it can, otherwise
      reads and parses the class, and parsing registers it. */
    method GetClass(name: string) returns (r: Result<ClassInfo, ClassNotFoundException>)
      modifies this`classes
      ensures r == old(Resolve(name))
      ensures classes == TableAfter(old(classes), classpathRoots, systemResources, name)
      decreases if IsArrayName(name) then 1 else 0
    {
      if IsArrayName(name) {
        assert !IsArrayName(ObjectClassName) by { assert ObjectClassName[0] == 'j'; }
        r := GetClass(ObjectClassName);
        return;
      }
      var key := CacheKey(name);
      if key in classes {
        r := Success(classes[key]);
      } else {
        r := InputStreamForClass(name);
        if r.Success? {
          // the class builder registers the class with this repository
          AddClass(r.value);
        }
      }
    }

    /** inputStreamForClass, with parseClass folded into the oracle: the
      class the resource parses to, or class-not-found naming the request. */
    method InputStreamForClass(name: string) returns (r: Result<ClassInfo, ClassNotFoundException>)
      ensures r.Failure? <==> ReadClass(classpathRoots, systemResources, ClassResource(name)).None?
      ensures r.Failure? ==> r.error.className == name
      ensures r.Success? ==> Some(r.value) == ReadClass(classpathRoots, systemResources, ClassResource(name))
    {
      var classResource := Replace(name, '.', '/') + ".class";
      var source := if classpathRoots.Some? then classpathRoots.value else systemResources;
      if classResource in source {
        r := Success(source[classResource]);
      } else {
        r := Failure(ClassNotFoundException(name));
      }
    }

    /** addClass: the class is stored under its own name, replacing any
      earlier entry; no other entry changes. */
    method AddClass(classInfo: ClassInfo)
      modifies this`classes
      ensures classes == old(classes)[classInfo.name := classInfo]
    {
      classes := classes[classInfo.name := classInfo];
    }
  }

  /** A lookup leaves a table that gives the same answer again. */
  lemma {:induction false} LookupIsStable(classes: map<string, ClassInfo>, roots: Option<ClassSource>, system: ClassSource, name: string)
    ensures Lookup(TableAfter(classes, roots, system, name), roots, system, name) == Lookup(classes, roots, system, name)
    decreases if IsArrayName(name) then 1 else 0
  {
    if IsArrayName(name) {
      assert !IsArrayName(ObjectClassName) by { assert ObjectClassName[0] == 'j'; }
      LookupIsStable(classes, roots, system, ObjectClassName);
    } else if CacheKey(name) !in classes && LoadClass(roots, system, name).Success? {
      var c := LoadClass(roots, system, name).value;
      assert TableAfter(classes, roots, system, name) == classes[c.name := c];
    }
  }

  /** Once a class that is named as requested has been looked up, the table
      holds it: the next lookup is a cache hit that no longer consults the
      class source, and it changes the table no further. */
  lemma SecondLookupHitsCache(classes: map<string, ClassInfo>, roots: Option<ClassSource>, system: ClassSource,
                              roots2: Option<ClassSource>, system2: ClassSource, name: string)
    requires !IsArrayName(name)
    requires Lookup(classes, roots, system, name).Success?
    requires Lookup(classes, roots, system, name).value.name == CacheKey(name)
    ensures var t := TableAfter(classes, roots, system, name);
            CacheKey(name) in t && t[CacheKey(name)] == Lookup(classes, roots, system, name).value
            && Lookup(t, roots2, system2, name) == Lookup(classes, roots, system, name)
            && TableAfter(t, roots2, system2, name) == t
  {
  }

  /** Asking twice gives the same class; when the class is named as
      requested, the second answer comes from the table. */
  method RepeatedLookup(repo: ClassRepository, name: string) returns (first: Result<ClassInfo, ClassNotFoundException>, second: Result<ClassInfo, ClassNotFoundException>)
    modifies repo`classes
    ensures first == second == old(repo.Resolve(name))
    ensures first.Success? && !IsArrayName(name) && first.value.name == CacheKey(name) ==>
              CacheKey(name) in repo.classes && repo.classes[CacheKey(name)] == first.value
  {
    ghost var before := repo.classes;
    first := repo.GetClass(name);
    LookupIsStable(before, repo.classpathRoots, repo.systemResources, name);
    second := repo.GetClass(name);
    if first.Success? && !IsArrayName(name) && first.value.name == CacheKey(name) {
      SecondLookupHitsCache(before, repo.classpathRoots, repo.systemResources, repo.classpathRoots, repo.systemResources, name);
    }
  }

  /** Every array descriptor resolves exactly as java.lang.Object does. */
  lemma ArrayNamesResolveAsObject(classes: map<string, ClassInfo>, roots: Option<ClassSource>, system: ClassSource, name: string)
    requires |name| > 0 && name[0] == '['
    ensures Lookup(classes, roots, system, name) == Lookup(classes, roots, system, ObjectClassName)
  {
    assert IsArrayName(name);
  }

  /** A class already in the table is returned without consulting the class
      source: any two sources give the same answer. */
  lemma CacheHitIgnoresSource(classes: map<string, ClassInfo>, roots1: Option<ClassSource>, system1: ClassSource,
                              roots2: Option<ClassSource>, system2: ClassSource, name: string)
    requires !IsArrayName(name) && CacheKey(name) in classes
    ensures Lookup(classes, roots1, system1, name) == Lookup(classes, roots2, system2, name) == Success(classes[CacheKey(name)])
  {
  }

  /** The exception names the class that was asked for (java.lang.Object
      for an array descriptor). */
  lemma NotFoundNamesRequest(classes: map<string, ClassInfo>, roots: Option<ClassSource>, system: ClassSource, name: string)
    requires Lookup(classes, roots, system, name).Failure?
    ensures Lookup(classes, roots, system, name).error.className == if IsArrayName(name) then ObjectClassName else name
  {
    if IsArrayName(name) {
      assert !IsArrayName(ObjectClassName) by { assert ObjectClassName[0] == 'j'; }
    }
  }

  /** After addClass, looking the class up by its name, in dotted or in
      slashed form, yields it. */
  lemma LookupAfterAdd(classes: map<string, ClassInfo>, roots: Option<ClassSource>, system: ClassSource, c: ClassInfo, name: string)
    requires !IsArrayName(name) && CacheKey(name) == c.name
    ensures Lookup(classes[c.name := c], roots, system, name) == Success(c)
  {
  }

  /** The table key and the resource path name the same class: the key has
      no '/', the resource stem has no '.', and turning the stem back into a
      key gives the key of the original name. */
  lemma {:induction false} KeyAndResourceAgree(name: string)
    ensures '/' !in CacheKey(name)
    ensures '.' !in Replace(name, '.', '/')
    ensures ClassResource(name) == Replace(name, '.', '/') + ".class"
    ensures CacheKey(Replace(name, '.', '/')) == CacheKey(name)
  {
    var k := CacheKey(name);
    var stem := Replace(name, '.', '/');
    assert forall i :: 0 <= i < |k| ==> k[i] != '/';
    assert forall i :: 0 <= i < |stem| ==> stem[i] != '.';
    assert CacheKey(stem) == k by {
      forall i | 0 <= i < |k|
        ensures CacheKey(stem)[i] == k[i]
      {
      }
    }
  }
}
