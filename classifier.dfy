/** `primaryCheck`: tags every record with whether its color is a primary color. */
module Classifier {
  import opened Wrappers
  import opened Records

  /** The array the code searches with `includes`. */
  const PrimaryColors: seq<string> := ["red", "blue", "yellow"]

  /** The primary colors, stated independently of the array above. */
  predicate IsPrimaryColor(color: string) {
    color == "red" || color == "blue" || color == "yellow"
  }

  /** `{ ...record, isPrimary: primaryColors.includes(record.color) }` */
  function Classify(rec: Record): (c: Classified)
    ensures c.record == rec
    ensures c.isPrimary <==> IsPrimaryColor(rec.color)
  {
    Classified(rec, rec.color in PrimaryColors)
  }

  /** `records.map(...)`: one classified copy per record, in the same order. */
  function ClassifyAll(records: seq<Record>): (r: seq<Classified>)
    ensures |r| == |records|
    ensures forall i :: 0 <= i < |records| ==> r[i].record == records[i]
    ensures forall i :: 0 <= i < |records| ==> (r[i].isPrimary <==> IsPrimaryColor(records[i].color))
  {
    if records == [] then [] else [Classify(records[0])] + ClassifyAll(records[1..])
  }

  /** `primaryCheck(records = [])`: an omitted argument classifies as the empty list. */
  function PrimaryCheck(records: Option<seq<Record>>): (r: seq<Classified>)
    ensures records.None? ==> r == []
    ensures records.Some? ==> |r| == |records.value|
    ensures records.Some? ==> forall i :: 0 <= i < |r| ==>
      r[i].record == records.value[i] && (r[i].isPrimary <==> IsPrimaryColor(records.value[i].color))
  {
    ClassifyAll(records.GetOr([]))
  }
}
