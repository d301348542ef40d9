/**
 * `breakdown`: one left-to-right pass over the classified records that
 * collects every id, the open records, and the number of closed primary records.
 */
module Aggregator {
  import opened Wrappers
  import opened Records

  /** The metadata `{ ids, open, closedPrimaryCount }` as a value. */
  datatype Summary = Summary(ids: seq<string>, open: seq<Classified>, closedPrimaryCount: int)

  /** The accumulator `reduce` starts from. */
  const Initial: Summary := Summary([], [], 0)

  /** `record.disposition === "closed" && record.isPrimary` */
  predicate IsClosedPrimary(c: Classified) {
    c.record.disposition == "closed" && c.isPrimary
  }

  /** The pure reducer kept, commented out, beside the mutating one. */
  function PureReducer(acc: Summary, c: Classified): (r: Summary)
    ensures r == Summary(acc.ids + Ids([c]), acc.open + Open([c]), acc.closedPrimaryCount + ClosedPrimaryCount([c]))
  {
    assert [c][1..] == [];
    Summary(acc.ids + [c.record.id],
            acc.open + (if c.record.disposition == "open" then [c] else []),
            if IsClosedPrimary(c) then acc.closedPrimaryCount + 1 else acc.closedPrimaryCount)
  }

  /** `records.reduce(PureReducer, acc)`: a left fold, unrolled from its last step. */
  function ReduceFrom(acc: Summary, records: seq<Classified>): (r: Summary)
    ensures |r.ids| == |acc.ids| + |records|
    ensures |acc.open| <= |r.open| <= |acc.open| + |records|
    ensures acc.closedPrimaryCount <= r.closedPrimaryCount <= acc.closedPrimaryCount + |records|
  {
    if records == [] then acc
    else PureReducer(ReduceFrom(acc, records[..|records| - 1]), records[|records| - 1])
  }

  // Reference definitions of the three outputs, one record at a time from the front.

  /** The id of every record, in input order. */
  function Ids(records: seq<Classified>): (r: seq<string>)
    ensures |r| == |records|
    ensures forall i :: 0 <= i < |records| ==> r[i] == records[i].record.id
  {
    if records == [] then [] else [records[0].record.id] + Ids(records[1..])
  }

  /** The records whose disposition is "open", in input order. */
  function Open(records: seq<Classified>): seq<Classified> {
    if records == [] then []
    else if records[0].record.disposition == "open" then [records[0]] + Open(records[1..])
    else Open(records[1..])
  }

  /** How many records are closed and primary. */
  function ClosedPrimaryCount(records: seq<Classified>): nat {
    if records == [] then 0
    else (if IsClosedPrimary(records[0]) then 1 else 0) + ClosedPrimaryCount(records[1..])
  }

  /** Every id, and only those, of the two halves, in order. */
  lemma {:induction false} IdsAppend(a: seq<Classified>, b: seq<Classified>)
    ensures Ids(a + b) == Ids(a) + Ids(b)
  {
    if a == [] {
      assert a + b == b;
    } else {
      assert (a + b)[1..] == a[1..] + b;
      IdsAppend(a[1..], b);
    }
  }

  /** Filtering the open records keeps their relative order: it distributes over concatenation. */
  lemma {:induction false} OpenAppend(a: seq<Classified>, b: seq<Classified>)
    ensures Open(a + b) == Open(a) + Open(b)
  {
    if a == [] {
      assert a + b == b;
    } else {
      assert (a + b)[1..] == a[1..] + b;
      OpenAppend(a[1..], b);
    }
  }

  /** The count of closed primary records adds up over the two halves. */
  lemma {:induction false} ClosedPrimaryCountAppend(a: seq<Classified>, b: seq<Classified>)
    ensures ClosedPrimaryCount(a + b) == ClosedPrimaryCount(a) + ClosedPrimaryCount(b)
  {
    if a == [] {
      assert a + b == b;
    } else {
      assert (a + b)[1..] == a[1..] + b;
      ClosedPrimaryCountAppend(a[1..], b);
    }
  }

  /** The open records are exactly the input records whose disposition is "open". */
  lemma {:induction false} OpenMembers(records: seq<Classified>)
    ensures forall c :: c in Open(records) <==> c in records && c.record.disposition == "open"
    ensures |Open(records)| <= |records|
  {
    if records != [] {
      OpenMembers(records[1..]);
      assert records == [records[0]] + records[1..];
    }
  }

  /** Open and closed-primary records are disjoint, so together they never outnumber the input. */
  lemma {:induction false} CountBound(records: seq<Classified>)
    ensures ClosedPrimaryCount(records) + |Open(records)| <= |records|
  {
    if records != [] {
      CountBound(records[1..]);
    }
  }

  /**
   * The fold of the pure reducer from any accumulator appends the ids, the
   * open records and the count of the folded records to it.
   */
  lemma {:induction false} ReduceFromCharacterised(acc: Summary, records: seq<Classified>)
    ensures ReduceFrom(acc, records) ==
      Summary(acc.ids + Ids(records), acc.open + Open(records), acc.closedPrimaryCount + ClosedPrimaryCount(records))
  {
    if records != [] {
      var front, last := records[..|records| - 1], records[|records| - 1];
      assert records == front + [last];
      var prev := ReduceFrom(acc, front);
      assert ReduceFrom(acc, records) == PureReducer(prev, last);
      ReduceFromCharacterised(acc, front);
      assert [last][1..] == [];
      IdsAppend(front, [last]);
      assert prev.ids + [last.record.id] == acc.ids + Ids(records);
      OpenAppend(front, [last]);
      assert prev.open + (if last.record.disposition == "open" then [last] else []) == acc.open + Open(records);
      ClosedPrimaryCountAppend(front, [last]);
    }
  }

  /** From the initial accumulator the fold yields exactly the three reference outputs. */
  lemma ReduceCharacterised(records: seq<Classified>)
    ensures ReduceFrom(Initial, records) == Summary(Ids(records), Open(records), ClosedPrimaryCount(records))
    ensures |ReduceFrom(Initial, records).ids| == |records|
    ensures ReduceFrom(Initial, records).closedPrimaryCount + |ReduceFrom(Initial, records).open| <= |records|
  {
    ReduceFromCharacterised(Initial, records);
    CountBound(records);
  }

  /** The metadata object that `mutatingReducer` updates in place. */
  class Metadata {
    var ids: seq<string>
    var open: seq<Classified>
    var closedPrimaryCount: int

    /** `{ ids: [], open: [], closedPrimaryCount: 0 }` */
    constructor ()
      ensures View() == Initial
    {
      ids, open, closedPrimaryCount := [], [], 0;
    }

    /** The object's fields as a value. */
    function View(): Summary
      reads this
    {
      Summary(ids, open, closedPrimaryCount)
    }

    /** `mutatingReducer(metadata, record)`: one record's effect, made in place. */
    method MutatingReduce(c: Classified)
      modifies this
      ensures ids == old(ids) + [c.record.id]
      ensures open == if c.record.disposition == "open" then old(open) + [c] else old(open)
      ensures closedPrimaryCount == if IsClosedPrimary(c) then old(closedPrimaryCount) + 1 else old(closedPrimaryCount)
      ensures View() == PureReducer(old(View()), c)
    {
      var closedPrimary := c.record.disposition == "closed" && c.isPrimary;
      ids := ids + [c.record.id];
      if c.record.disposition == "open" {
        open := open + [c];
      }
      if closedPrimary {
        closedPrimaryCount := closedPrimaryCount + 1;
      }
    }
  }

  /**
   * `breakdown(records = [])`: the mutating fold gives what the pure reducer
   * gives, which is every id, the open records and the closed primary count.
   */
  method Breakdown(records: Option<seq<Classified>>) returns (s: Summary)
    ensures s == ReduceFrom(Initial, records.GetOr([]))
    ensures s.ids == Ids(records.GetOr([]))
    ensures s.open == Open(records.GetOr([]))
    ensures s.closedPrimaryCount == ClosedPrimaryCount(records.GetOr([]))
    ensures records.None? ==> s == Initial
  {
    var rs := records.GetOr([]);
    var metadata := new Metadata();
    for i := 0 to |rs|
      invariant metadata.View() == ReduceFrom(Initial, rs[..i])
    {
      assert rs[..i + 1][..i] == rs[..i];
      metadata.MutatingReduce(rs[i]);
    }
    assert rs[..|rs|] == rs;
    s := metadata.View();
    ReduceCharacterised(rs);
  }
}
