/** The two output shapes: newline-delimited JSON and CSV with a header row.
    The per-record serialisers are parameters; only counts, order and the
    empty-input failure are modelled. */
module Report {
  import opened Wrappers
  import opened Rates

  datatype Format = CSV | JSON

  /** Where the lines go: a named file (opened for writing) or standard output. */
  datatype Destination = File(path: string) | Console

  /** The destination chosen by the output-file option: a file only for a
      non-empty path; an absent or empty path is false as a condition, and the
      output goes to the console. */
  function DestinationOf(outputFile: Option<string>): (d: Destination)
    ensures d == Console <==> outputFile.None? || outputFile.value == ""
    ensures d.File? ==> outputFile == Some(d.path)
  {
    match outputFile
    case Some(path) => if path != "" then File(path) else Console
    case None => Console
  }

  /** The CSV branch reads the header off `data[0]`; on empty data that index
      fails and the run ends with the error. */
  datatype EmitError = NoFirstRecord

  /** The lines written, in order, and where they were written. */
  datatype Output = Output(destination: Destination, lines: seq<string>)

  /** The serialisers the program borrows from its libraries: one JSON object
      per record, the CSV header row for a list of field names, and one CSV row
      per record. */
  datatype Serializers<!R> = Serializers(
    jsonDumps: Record<R> -> string,
    csvHeader: seq<string> -> string,
    csvRow: Record<R> -> string)

  /** Apply `f` to every element, keeping the order: a loop that writes one
      line per item. */
  function MapSeq<A, B>(xs: seq<A>, f: A -> B): (ys: seq<B>)
    ensures |ys| == |xs|
    ensures forall i :: 0 <= i < |xs| ==> ys[i] == f(xs[i])
  {
    if xs == [] then [] else [f(xs[0])] + MapSeq(xs[1..], f)
  }

  /** The JSON branch: one serialised object per record. */
  function JsonLines<R>(data: seq<Record<R>>, ser: Serializers<R>): (lines: seq<string>)
    ensures |lines| == |data|
    ensures forall i :: 0 <= i < |data| ==> lines[i] == ser.jsonDumps(data[i])
  {
    MapSeq(data, ser.jsonDumps)
  }

  /** The CSV branch: a header from the first record's keys, then one row per
      record; it fails when there is no first record. */
  function CsvLines<R>(data: seq<Record<R>>, ser: Serializers<R>): (r: Result<seq<string>, EmitError>)
    ensures r.Failure? <==> data == []
    ensures r.Success? ==>
              && |r.value| == |data| + 1
              && r.value[0] == ser.csvHeader(FieldNames)
              && forall i :: 1 <= i < |r.value| ==> r.value[i] == ser.csvRow(data[i - 1])
  {
    if data == [] then Failure(NoFirstRecord)
    else Success([ser.csvHeader(data[0].Keys())] + MapSeq(data, ser.csvRow))
  }

  /** The emit step of the program: the chosen format's lines, to the chosen
      destination. File and console receive the same lines. */
  function Emit<R>(data: seq<Record<R>>, format: Format, dest: Destination, ser: Serializers<R>): (r: Result<Output, EmitError>)
    ensures r.Success? ==> r.value.destination == dest
    ensures format == JSON ==>
              && r.Success?
              && |r.value.lines| == |data|
              && forall i :: 0 <= i < |data| ==> r.value.lines[i] == ser.jsonDumps(data[i])
    ensures format == CSV ==> (r.Failure? <==> data == [])
    ensures format == CSV && r.Success? ==>
              && |r.value.lines| == |data| + 1
              && r.value.lines[0] == ser.csvHeader(FieldNames)
              && forall i :: 1 <= i < |r.value.lines| ==> r.value.lines[i] == ser.csvRow(data[i - 1])
  {
    match format
    case JSON => Success(Output(dest, JsonLines(data, ser)))
    case CSV =>
      match CsvLines(data, ser)
      case Success(lines) => Success(Output(dest, lines))
      case Failure(e) => Failure(e)
  }

  /** Writing to a file or to the console makes no difference to what is written. */
  lemma DestinationIrrelevant<R>(data: seq<Record<R>>, format: Format, d1: Destination, d2: Destination, ser: Serializers<R>)
    ensures Emit(data, format, d1, ser).Success? == Emit(data, format, d2, ser).Success?
    ensures Emit(data, format, d1, ser).Success? ==>
              Emit(data, format, d1, ser).value.lines == Emit(data, format, d2, ser).value.lines
  {
  }

  /** Reading lines back with a parser that inverts the serialiser recovers the
      records, in order. */
  lemma MapSeqRoundTrip<A, B>(xs: seq<A>, f: A -> B, g: B -> A)
    requires forall x :: g(f(x)) == x
    ensures MapSeq(MapSeq(xs, f), g) == xs
  {
  }

  /** Both formats carry the same records: decoding the JSON lines, or the CSV
      lines after the header, with parsers that invert the serialisers gives
      back the input sequence. */
  lemma FormatsAgree<R>(data: seq<Record<R>>, dest: Destination, ser: Serializers<R>,
                        parseJson: string -> Record<R>, parseRow: string -> Record<R>)
    requires forall r :: parseJson(ser.jsonDumps(r)) == r
    requires forall r :: parseRow(ser.csvRow(r)) == r
    requires data != []
    ensures MapSeq(Emit(data, JSON, dest, ser).value.lines, parseJson) == data
    ensures MapSeq(Emit(data, CSV, dest, ser).value.lines[1..], parseRow) == data
  {
  }
}
