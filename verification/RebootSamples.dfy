/** Run and boot identifiers of the accepted shapes, for concrete journals. */
module RebootSamples {
  import opened RebootDocuments
  import opened RebootJournal

  function Boot(): string {
    seq(36, (i: nat) => if i in {8, 13, 18, 23} then '-' else if i == 14 then '1' else if i == 19 then '8' else '0')
  }

  function First(): RunId {
    seq(29, (i: nat) => if i == 8 then 'T' else if i == 15 then 'Z' else if i == 16 then '-' else '0')
  }

  lemma Shapes()
    ensures RunIdShape(First()) && UuidShape(Boot())
  {
  }
}
