/** Count wording shared by the scorecard and the care-gap pages:
    a noun takes a trailing "s" unless the count is exactly one. */
module Wording {

  /** The noun as shown after a count: `noun` for one, `noun + "s"` otherwise. */
  function Plural(count: int, noun: string): (s: string)
    ensures s == noun || s == noun + "s"
    ensures s == noun <==> count == 1
    ensures |s| == |noun| + (if count == 1 then 0 else 1)
  {
    if count != 1 then noun + "s" else noun
  }

  /** Whether the shown noun carries the plural "s", read off the text alone. */
  lemma PluralEndsInS(count: int, noun: string)
    requires noun != [] && noun[|noun| - 1] != 's'
    ensures Plural(count, noun)[|Plural(count, noun)| - 1] == 's' <==> count != 1
  {
    if count != 1 {
      assert Plural(count, noun) == noun + "s";
    }
  }

  /** A "Showing N noun(s)" line: the count and the noun as worded for it. */
  datatype CountLine = CountLine(count: nat, noun: string)

  function Showing(count: nat, noun: string): (r: CountLine)
    ensures r.count == count
    ensures r.noun == noun <==> count == 1
    ensures r.noun == noun || r.noun == noun + "s"
  {
    CountLine(count, Plural(count, noun))
  }
}
