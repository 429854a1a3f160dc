/** MethodCost: a method together with the cost computed for it, and its
    printed form "<name><desc> cost: <complexity>". */
module MethodCosts {
  import opened JavaLang
  import opened Types
  import MethodInfos

  /** Both fields are final: the cost never changes after construction. */
  datatype MethodCost = MethodCost(methodInfo: MethodInfo, complexity: int)

  /** The caller-supplied buffer toString(StringBuilder) appends to. */
  class StringBuilder {
    var contents: string

    constructor ()
      ensures contents == ""
    {
      contents := "";
    }

    method Append(s: string)
      modifies this
      ensures contents == old(contents) + s
    {
      contents := contents + s;
    }
  }

  /** getComplexity: the total cost given to the constructor, which is the
      number the printed form reports. */
  function Complexity(mc: MethodCost): (c: int)
    ensures var t, n := CostText(mc), |CostNameDesc(mc)|;
            |t| > n + 7 && ParseDecimal(t[n + 7..]) == Some(c)
  {
    CostTextParses(mc);
    mc.complexity
  }

  /** getNameDesc: the cost is reported under its method's name and
      descriptor. */
  function CostNameDesc(mc: MethodCost): (r: string)
    ensures |r| == |mc.methodInfo.name| + |mc.methodInfo.desc|
    ensures r[..|mc.methodInfo.name|] == mc.methodInfo.name && r[|mc.methodInfo.name|..] == mc.methodInfo.desc
  {
    MethodInfos.NameDesc(mc.methodInfo)
  }

  /** The text toString produces: the name-and-descriptor, " cost: ", then
      the complexity as Long.toString writes it (digits, with a '-' exactly
      when negative, and no leading zero). */
  function CostText(mc: MethodCost): (t: string)
    ensures var n := |CostNameDesc(mc)|;
            |t| > n + 7 && t[..n] == CostNameDesc(mc) && t[n..n + 7] == " cost: "
            && t[n + 7..] == DecimalString(mc.complexity)
  {
    var t := CostNameDesc(mc) + " cost: " + DecimalString(mc.complexity);
    assert t[..|CostNameDesc(mc)|] == CostNameDesc(mc);
    t
  }

  /** toString(StringBuilder): appends the text and keeps what the buffer
      held before as its prefix. */
  method ToStringInto(mc: MethodCost, buf: StringBuilder)
    modifies buf
    ensures buf.contents == old(buf.contents) + CostText(mc)
  {
    buf.Append(MethodInfos.NameDesc(mc.methodInfo));
    buf.Append(" cost: ");
    buf.Append(DecimalString(mc.complexity));
  }

  /** toString(): the same text, written into a fresh buffer. */
  method ToString(mc: MethodCost) returns (s: string)
    ensures s == CostText(mc)
    ensures |s| > |CostNameDesc(mc)| + 7
    ensures s[..|CostNameDesc(mc)|] == CostNameDesc(mc)
    ensures s[|CostNameDesc(mc)|..|CostNameDesc(mc)| + 7] == " cost: "
    ensures ParseDecimal(s[|CostNameDesc(mc)| + 7..]) == Some(Complexity(mc))
  {
    var buf := new StringBuilder();
    ToStringInto(mc, buf);
    s := buf.contents;
    assert s == CostText(mc);
    CostTextParses(mc);
  }

  /** The printed cost can be read back: the method's name and descriptor,
      " cost: ", then the decimal complexity. */
  lemma CostTextParses(mc: MethodCost)
    ensures var t, n := CostText(mc), |CostNameDesc(mc)|;
            |t| > n + 7 && t[..n] == CostNameDesc(mc) && t[n..n + 7] == " cost: "
            && ParseDecimal(t[n + 7..]) == Some(mc.complexity)
  {
    var t, n := CostText(mc), |CostNameDesc(mc)|;
    assert t[n + 7..] == DecimalString(mc.complexity);
    DecimalRoundTrip(mc.complexity);
  }
}
