/** ReturnOperation's printed form. Its effect on the cost context,
    recording the returned variable, is CostEngine.ComputeReturnMetric. */
module Returns {
  import opened Types

  /** "return " followed by the returned variable. */
  function ReturnText(ret: ReturnOperation): (r: string)
    ensures |r| == 7 + |ret.value.display|
    ensures r[..7] == "return " && r[7..] == ret.value.display
  {
    "return " + ret.value.display
  }

  /** Two return operations print alike exactly when their values print
      alike; the line number plays no part. */
  lemma ReturnTextIdentifiesValue(r1: ReturnOperation, r2: ReturnOperation)
    ensures ReturnText(r1) == ReturnText(r2) <==> r1.value.display == r2.value.display
  {
    if ReturnText(r1) == ReturnText(r2) {
      assert ReturnText(r1)[7..] == ReturnText(r2)[7..];
    }
  }
}
