/** The program's flow once the response is in hand: build the cursor, drain
    it into a list, choose the logging threshold, emit the list. */
module App {
  import opened Wrappers
  import opened CurrencyNames
  import opened Rates
  import opened Iteration
  import opened Report
  import opened Logs

  /** One run over an already-fetched response. */
  method Run<R>(iso: string, dateFrom: string, dateTo: string, response: Response<R>,
                verbosity: int, format: Format, outputFile: Option<string>, ser: Serializers<R>)
    returns (level: Level, out: Result<Output, EmitError>)
    ensures level == SetupLevel(verbosity)
    ensures out == Emit(ResponseRecords(response), format, DestinationOf(outputFile), ser)
  {
    var cursor := new CurrencyIterator(iso, dateFrom, dateTo, response);
    var it := cursor.Iter();
    var data := it.Drain();
    level := SetupLevel(verbosity);
    out := Emit(data, format, DestinationOf(outputFile), ser);
  }

  /** Newline-delimited JSON: one line per upstream rate, in upstream order,
      each line the serialisation of that rate's record. */
  lemma JsonRunShape<R>(response: Response<R>, dest: Destination, ser: Serializers<R>, i: nat)
    requires i < |response.rates|
    ensures Emit(ResponseRecords(response), JSON, dest, ser).Success?
    ensures |Emit(ResponseRecords(response), JSON, dest, ser).value.lines| == |response.rates|
    ensures Emit(ResponseRecords(response), JSON, dest, ser).value.lines[i]
            == ser.jsonDumps(Record(response.code, ResolveName(response.code, response.currency),
                                    response.rates[i].mid, response.rates[i].effectiveDate))
  {
  }

  /** A date range without published rates: JSON writes nothing, CSV fails
      on the missing first record. */
  lemma EmptyRangeRun<R>(response: Response<R>, dest: Destination, ser: Serializers<R>)
    requires response.rates == []
    ensures Emit(ResponseRecords(response), JSON, dest, ser) == Success(Output(dest, []))
    ensures Emit(ResponseRecords(response), CSV, dest, ser) == Failure(NoFirstRecord)
  {
  }

  /** CSV of a non-empty response: the four field names as header, then one
      row per rate in upstream order. */
  lemma CsvRunShape<R>(response: Response<R>, dest: Destination, ser: Serializers<R>, i: nat)
    requires i < |response.rates|
    ensures Emit(ResponseRecords(response), CSV, dest, ser).Success?
    ensures Emit(ResponseRecords(response), CSV, dest, ser).value.lines[0]
            == ser.csvHeader(["ISO", "Currency Name", "Rate", "Date"])
    ensures |Emit(ResponseRecords(response), CSV, dest, ser).value.lines| == |response.rates| + 1
    ensures Emit(ResponseRecords(response), CSV, dest, ser).value.lines[i + 1]
            == ser.csvRow(Record(response.code, ResolveName(response.code, response.currency),
                                 response.rates[i].mid, response.rates[i].effectiveDate))
  {
  }

  /** A one-day range for USD with one published rate: JSON writes one line,
      for the record with the English name from the table. */
  lemma UsdOneDayExample<R>(mid: R, dest: Destination, ser: Serializers<R>)
    ensures Emit(ResponseRecords(Response("USD", "dolar amerykanski", [RateItem(mid, "2024-01-02")])), JSON, dest, ser)
            == Success(Output(dest, [ser.jsonDumps(Record("USD", "US Dollar", mid, "2024-01-02"))]))
  {
    var data := ResponseRecords(Response("USD", "dolar amerykanski", [RateItem(mid, "2024-01-02")]));
    assert data == [Record("USD", "US Dollar", mid, "2024-01-02")];
    var lines := Emit(data, JSON, dest, ser).value.lines;
    assert lines == [lines[0]];
  }
}
