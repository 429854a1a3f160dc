/** MethodInfo's pure queries: its descriptor, its printed form and whether a
    test double could override it. */
module MethodInfos {
  import opened Types

  const ConstructorName: string := "<init>"

  /** Method name followed by its JVM descriptor, e.g. "methodA()V". */
  function NameDesc(m: MethodInfo): (r: string)
    ensures |r| == |m.name| + |m.desc|
    ensures r[..|m.name|] == m.name && r[|m.name|..] == m.desc
  {
    m.name + m.desc
  }

  /** "<class>.<name><desc>". */
  function MethodText(m: MethodInfo): (r: string)
    ensures |r| == |m.classInfo.name| + 1 + |NameDesc(m)|
    ensures r[..|m.classInfo.name|] == m.classInfo.name
    ensures r[|m.classInfo.name|] == '.'
    ensures r[|m.classInfo.name| + 1..] == NameDesc(m)
  {
    m.classInfo.name + "." + NameDesc(m)
  }

  /** isConstructor: recognised by the name alone, so a constructor's
      name-and-descriptor, and its printed form after the class name, start
      with "<init>" whatever its descriptor, class or flags. */
  predicate IsConstructor(m: MethodInfo): (b: bool)
    ensures b ==> |NameDesc(m)| >= 6 && NameDesc(m)[..6] == ConstructorName
    ensures b ==> MethodText(m)[|m.classInfo.name| + 1..][..6] == ConstructorName
  {
    m.name == ConstructorName
  }

  /** A call to `m` can be intercepted by a subclass: it is neither a
      constructor, nor static, nor private. */
  predicate CanOverride(m: MethodInfo): (b: bool)
    ensures m.name == ConstructorName ==> !b
    ensures m.isStatic ==> !b
    ensures m.visibility == Private ==> !b
  {
    !IsConstructor(m) && !m.isStatic && m.visibility != Private
  }

  /** Each of the three flags alone rules overriding out, and together their
      absence is enough. */
  lemma CanOverrideExactly(m: MethodInfo)
    ensures CanOverride(m) <==> (m.name != "<init>" && !m.isStatic && m.visibility != Private)
    ensures IsConstructor(m) ==> !CanOverride(m)
  {
  }

  /** Two methods with the same name and descriptor print the same
      descriptor, and the printed form of a method tells its class and
      descriptor apart: the text determines both (given the class name). */
  lemma {:induction false} MethodTextDeterminesNameDesc(m1: MethodInfo, m2: MethodInfo)
    requires m1.classInfo.name == m2.classInfo.name
    requires MethodText(m1) == MethodText(m2)
    ensures NameDesc(m1) == NameDesc(m2)
  {
    var n := |m1.classInfo.name| + 1;
    assert NameDesc(m1) == MethodText(m1)[n..];
    assert NameDesc(m2) == MethodText(m2)[n..];
  }

  /** The methods the metric tests exercise: a public static method, a
      public instance method and a constructor, plus the printed forms
      checked for a single-method class. */
  lemma MetricTestMethods(c: ClassInfo, v: Variable)
    ensures !CanOverride(MethodInfo(c, "statiCost1", "()I", true, v, [], [], Public, 2, []))
    ensures CanOverride(MethodInfo(c, "cost2", "()I", false, v, [], [], Public, 3, []))
    ensures !CanOverride(MethodInfo(c, "<init>", "()V", false, v, [], [], Public, 1, []))
  {
  }

  /** The single method of a one-method class: its name-and-descriptor, and
      its printed form prefixed with the class name. */
  lemma SingleMethodClassText(c: ClassInfo, v: Variable)
    ensures NameDesc(MethodInfo(c, "methodA", "()V", false, v, [], [], Public, 1, [])) == "methodA()V"
    ensures MethodText(MethodInfo(c, "methodA", "()V", false, v, [], [], Public, 1, []))
         == c.name + ".methodA()V"
  {
  }
}
