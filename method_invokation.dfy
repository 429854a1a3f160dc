/** MethodInvokation's pure queries: its qualified name and printed form,
    and the key under which its target is looked up. */
module Invokations {
  import opened Types
  import MethodInfos

  /** "<owner>.<name>". */
  function MethodName(inv: MethodInvokation): (r: string)
    ensures |r| == |inv.clazzName| + 1 + |inv.name|
    ensures r[..|inv.clazzName|] == inv.clazzName
    ensures r[|inv.clazzName|] == '.'
    ensures r[|inv.clazzName| + 1..] == inv.name
  {
    inv.clazzName + "." + inv.name
  }

  /** "<owner>.<name><signature>", e.g. "null.methodA(II)I". */
  function InvokationText(inv: MethodInvokation): (r: string)
    ensures |r| == |MethodName(inv)| + |inv.signature|
    ensures r[..|MethodName(inv)|] == MethodName(inv)
    ensures r[|MethodName(inv)|..] == inv.signature
  {
    MethodName(inv) + inv.signature
  }

  /** The name-and-descriptor the target is looked up by. */
  function TargetNameDesc(inv: MethodInvokation): (r: string)
    ensures |r| == |inv.name| + |inv.signature| && r[..|inv.name|] == inv.name && r[|inv.name|..] == inv.signature
  {
    inv.name + inv.signature
  }

  /** A call site prints exactly like the method it resolves to: when the
      target's class is the call's owner and its name and descriptor are
      the call's name and signature, both texts agree. */
  lemma {:induction false} CallPrintsLikeTarget(inv: MethodInvokation, m: MethodInfo)
    requires m.classInfo.name == inv.clazzName
    requires m.name == inv.name && m.desc == inv.signature
    ensures InvokationText(inv) == MethodInfos.MethodText(m)
    ensures MethodInfos.NameDesc(m) == TargetNameDesc(inv)
  {
    calc {
      InvokationText(inv);
      (inv.clazzName + "." + inv.name) + inv.signature;
      { assert (inv.clazzName + "." + inv.name) + inv.signature
            == inv.clazzName + "." + (inv.name + inv.signature); }
      MethodInfos.MethodText(m);
    }
  }

  /** The printed call from the block translation test. */
  lemma BlockTestCallText(v: Variable, ps: seq<Variable>)
    ensures InvokationText(MethodInvokation(-1, "null", "methodA", "(II)I", v, ps)) == "null.methodA(II)I"
    ensures MethodName(MethodInvokation(-1, "null", "methodA", "(II)I", v, ps)) == "null.methodA"
  {
  }
}
