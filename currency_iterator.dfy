/** The pull cursor over a parsed response: each step yields the next record
    or signals exhaustion. */
module Iteration {
  import opened Wrappers
  import opened CurrencyNames
  import opened Rates

  class CurrencyIterator<R> {
    /** The request parameters the cursor was created for. */
    const iso: string
    const dateFrom: string
    const dateTo: string
    /** The response's rate items, its settled code and the resolved display name. */
    const rates: seq<RateItem<R>>
    const code: string
    const name: string
    /** The position of the next item to yield. */
    var index: nat

    ghost predicate Valid()
      reads this
    {
      index <= |rates|
    }

    /** True once every item has been yielded. */
    ghost predicate Exhausted()
      reads this
    {
      index >= |rates|
    }

    /** The records still to come, in order. */
    ghost function Remaining(): (rs: seq<Record<R>>)
      reads this
      requires Valid()
    {
      Records(code, name, rates[index..])
    }

    /** The cursor over a response already fetched for (iso, dateFrom, dateTo). */
    constructor (iso: string, dateFrom: string, dateTo: string, response: Response<R>)
      ensures Valid() && index == 0
      ensures this.iso == iso && this.dateFrom == dateFrom && this.dateTo == dateTo
      ensures rates == response.rates && code == response.code
      ensures name == ResolveName(response.code, response.currency)
      ensures Remaining() == ResponseRecords(response)
    {
      this.iso := iso;
      this.dateFrom := dateFrom;
      this.dateTo := dateTo;
      this.rates := response.rates;
      this.code := response.code;
      this.name := ResolveName(response.code, response.currency);
      this.index := 0;
      new;
      assert rates[0..] == rates;
    }

    /** Iterating the cursor yields the cursor itself, not a fresh copy. */
    method Iter() returns (it: CurrencyIterator<R>)
      ensures it == this
    {
      it := this;
    }

    /** One step: None when exhausted (the cursor stays where it is), otherwise
        the record of the current item, after which the cursor moves on by one. */
    method Next() returns (r: Option<Record<R>>)
      requires Valid()
      modifies this`index
      ensures Valid()
      ensures old(index) >= |rates| ==> r == None && index == old(index)
      ensures old(index) < |rates| ==>
                && r == Some(MakeRecord(code, name, rates[old(index)]))
                && index == old(index) + 1
      ensures old(Exhausted()) ==> Exhausted() && r.None?
      ensures old(Remaining()) == if r.None? then [] else [r.value] + Remaining()
    {
      if index >= |rates| {
        r := None;
        return;
      }
      var item := rates[index];
      r := Some(MakeRecord(code, name, item));
      index := index + 1;
      assert rates[old(index)..] == [item] + rates[index..];
    }

    /** Pulls until exhaustion, collecting the records in the order yielded. */
    method Drain() returns (data: seq<Record<R>>)
      requires Valid()
      modifies this`index
      ensures Valid() && Exhausted() && index == |rates|
      ensures data == old(Remaining())
      ensures |data| == |rates| - old(index)
      ensures forall k :: 0 <= k < |data| ==>
                data[k] == Record(code, name, rates[old(index) + k].mid, rates[old(index) + k].effectiveDate)
    {
      ghost var start := index;
      data := [];
      while true
        invariant Valid() && start <= index
        invariant data == Records(code, name, rates[start..index])
        decreases |rates| - index
      {
        ghost var before := index;
        var r := Next();
        if r.None? {
          break;
        }
        RecordsSnoc(code, name, rates[start..before], rates[before]);
        assert rates[start..index] == rates[start..before] + [rates[before]];
        data := data + [r.value];
      }
      assert rates[start..index] == rates[start..];
    }
  }
}
