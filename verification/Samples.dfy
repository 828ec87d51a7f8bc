/** Identifiers and secrets in the formats the tables accept, for runs that are written out. */
module Samples {
  import opened Tables

  function SampleId(c: char): string {
    seq(36, i => if i in {8, 13, 18, 23} then '-' else if i == 14 then '4' else if i == 19 then '8' else c)
  }

  function SampleSecret(c: char): string {
    seq(64, i => c)
  }

  lemma SamplesValid(c: char, d: char)
    requires LowerHex(c) && LowerHex(d) && c != d
    ensures ValidAuthId(SampleId(c)) && ValidSecret(SampleSecret(c))
    ensures SampleId(c) != SampleId(d) && SampleSecret(c) != SampleSecret(d)
  {
    assert SampleSecret(c)[0] != SampleSecret(d)[0] && SampleId(c)[0] != SampleId(d)[0];
  }
}
