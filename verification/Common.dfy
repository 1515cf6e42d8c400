/** Constants of the runtime and facts about sets that several modules use. */
module Common {

  const WORD64: nat := 0x1_0000_0000_0000_0000

  const STREAMBUFFER: nat := 32768

  lemma SubsetSize<T>(a: set<T>, b: set<T>)
    requires a <= b
    ensures |a| <= |b| && (a < b ==> |a| < |b|)
  {
    assert b == a + (b - a);
    assert |b| == |a| + |b - a|;
  }
}
