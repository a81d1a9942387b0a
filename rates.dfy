/** The parsed upstream response and the flat four-field records built from it. */
module Rates {
  import opened CurrencyNames

  /** One element of the response's `rates` array. The mid rate is copied
      through untouched, so its type is a parameter. */
  datatype RateItem<R> = RateItem(mid: R, effectiveDate: string)

  /** The already-parsed body of the rate-table response. */
  datatype Response<R> = Response(code: string, currency: string, rates: seq<RateItem<R>>)

  /** One output record: the dictionary with keys ISO, Currency Name, Rate, Date. */
  datatype Record<R> = Record(iso: string, currencyName: string, rate: R, date: string)
  {
    /** The record's keys, in insertion order: the same four distinct names for
        every record. */
    function Keys(): (ks: seq<string>)
      ensures ks == FieldNames
      ensures forall i, j :: 0 <= i < j < |ks| ==> ks[i] != ks[j]
    {
      FieldNames
    }
  }

  /** The four field names, in the order the record dictionary is built. */
  const FieldNames: seq<string> := ["ISO", "Currency Name", "Rate", "Date"]

  /** The record built from one rate item for a currency. */
  function MakeRecord<R>(code: string, name: string, item: RateItem<R>): (r: Record<R>)
    ensures r.iso == code && r.currencyName == name
    ensures r.rate == item.mid && r.date == item.effectiveDate
  {
    Record(code, name, item.mid, item.effectiveDate)
  }

  /** The records for a sequence of rate items, one per item and in order. */
  function Records<R>(code: string, name: string, items: seq<RateItem<R>>): (rs: seq<Record<R>>)
    ensures |rs| == |items|
    ensures forall i :: 0 <= i < |items| ==>
              rs[i] == Record(code, name, items[i].mid, items[i].effectiveDate)
  {
    if items == [] then [] else [MakeRecord(code, name, items[0])] + Records(code, name, items[1..])
  }

  /** The record sequence of a whole response, with the display name resolved. */
  function ResponseRecords<R>(response: Response<R>): (rs: seq<Record<R>>)
    ensures |rs| == |response.rates|
    ensures forall i :: 0 <= i < |rs| ==>
              && rs[i].iso == response.code
              && rs[i].currencyName == ResolveName(response.code, response.currency)
              && rs[i].rate == response.rates[i].mid
              && rs[i].date == response.rates[i].effectiveDate
  {
    Records(response.code, ResolveName(response.code, response.currency), response.rates)
  }

  /** Extending the items by one extends the records by that item's record. */
  lemma RecordsSnoc<R>(code: string, name: string, items: seq<RateItem<R>>, item: RateItem<R>)
    ensures Records(code, name, items + [item]) == Records(code, name, items) + [MakeRecord(code, name, item)]
  {
  }

  /** All records of one run describe the same currency. */
  lemma OneCurrencyPerRun<R>(code: string, name: string, items: seq<RateItem<R>>, i: nat, j: nat)
    requires i < |items| && j < |items|
    ensures Records(code, name, items)[i].iso == Records(code, name, items)[j].iso
    ensures Records(code, name, items)[i].currencyName == Records(code, name, items)[j].currencyName
  {
  }
}
