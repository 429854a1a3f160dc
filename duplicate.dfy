/** The Duplicate stack operation: JVM dup, dup_x1 and dup_x2 (section 6.5
    of the JVM Specification). It consumes the top `offset + 1` slots and
    gives them back with a copy of the top slot inserted beneath them. */
module Duplicates {
  import opened JavaLang
  import opened Types

  datatype Duplicate = Duplicate(lineNumber: int, offset: int)

  /** getOperatorCount: the top slot and the `offset` slots beneath it;
      at least one slot exactly when the offset is not negative. */
  function OperatorCount(d: Duplicate): (n: int)
    ensures n >= 1 <==> d.offset >= 0
  {
    1 + d.offset
  }

  /** apply: `input` holds the popped slots, bottom first; the result is a
      fresh list with the top slot copied to the front. */
  function Apply(d: Duplicate, input: seq<Variable>): (r: seq<Variable>)
    requires |input| >= 1
    ensures |r| == |input| + 1
    ensures r[0] == input[|input| - 1]
    ensures r[1..] == input
  {
    [input[|input| - 1]] + input
  }

  /** Duplicate adds exactly one slot, a second copy of the top one, and
      loses none. */
  lemma ApplyAddsOneCopy(d: Duplicate, input: seq<Variable>)
    requires |input| >= 1
    ensures multiset(Apply(d, input)) == multiset(input) + multiset{input[|input| - 1]}
  {
  }

  /** Given exactly its operator count of slots, Duplicate produces one slot
      more: the JVM forms, top of stack last. */
  lemma JvmForms(d: Duplicate, a: Variable, b: Variable, c: Variable)
    ensures d.offset == 0 ==> OperatorCount(d) == 1 && Apply(d, [a]) == [a, a]
    ensures d.offset == 1 ==> OperatorCount(d) == 2 && Apply(d, [b, a]) == [a, b, a]
    ensures d.offset == 2 ==> OperatorCount(d) == 3 && Apply(d, [c, b, a]) == [a, c, b, a]
  {
  }

  /** Given exactly its operator count of slots, Duplicate pushes one slot
      more, and the copy of the top slot lands beneath the `offset` slots
      under the top, with the original slots above it in their order. */
  lemma {:induction false} CopyGoesBeneathOffsetSlots(d: Duplicate, input: seq<Variable>)
    requires d.offset >= 0 && |input| == OperatorCount(d)
    ensures var r := Apply(d, input);
            |r| == OperatorCount(d) + 1
            && r[|r| - 1 - (d.offset + 1)] == r[|r| - 1] == input[|input| - 1]
            && r[|r| - 1 - d.offset..] == input[|input| - 1 - d.offset..]
  {
    var r := Apply(d, input);
    assert r[|r| - 1 - (d.offset + 1)] == r[0];
    assert r[|r| - 1 - d.offset..] == r[1..] == input;
  }

  /** toString: "duplicate", with "_X" and the offset for a positive offset. */
  function DuplicateText(d: Duplicate): (r: string)
    ensures |r| >= 9 && r[..9] == "duplicate"
    ensures d.offset <= 0 <==> r == "duplicate"
  {
    var r := "duplicate" + (if d.offset > 0 then "_X" + DecimalString(d.offset) else "");
    assert r[..9] == "duplicate";
    r
  }

  /** The printed form names the offset: it is plain "duplicate" when the
      offset is not positive, and otherwise the offset can be read back from
      what follows "duplicate_X". */
  lemma DuplicateTextNamesOffset(d: Duplicate)
    ensures d.offset <= 0 ==> DuplicateText(d) == "duplicate"
    ensures d.offset > 0 ==>
      |DuplicateText(d)| > 11 && DuplicateText(d)[..11] == "duplicate_X"
      && ParseDecimal(DuplicateText(d)[11..]) == Some(d.offset)
  {
    if d.offset > 0 {
      assert DuplicateText(d)[11..] == DecimalString(d.offset);
      DecimalRoundTrip(d.offset);
    }
  }
}
