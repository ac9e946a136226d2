/** The format capability a streaming ingestion is given: a closed set of
    ingestion formats that can name themselves and can replace the
    "not set" value by the default format. */
module Formats {
  import opened Wrappers

  /** The ingestion formats of Kusto; `Unknown` is the zero value, meaning
      that the caller did not choose one. */
  datatype DataFormat =
    | Unknown
    | Avro | ApacheAvro | Csv | Json | MultiJson | Orc | Parquet | Psv | Raw
    | Scsv | Sohsv | SStream | Tsv | Tsve | Txt | W3cLogFile | SingleJson

  /** The format used when none was chosen. */
  const Default: DataFormat := Csv

  /** `KnownOrDefault`: a chosen format stays, an unset one becomes the default. */
  function KnownOrDefault(f: DataFormat): (r: DataFormat)
    ensures r != Unknown
    ensures f != Unknown ==> r == f
    ensures f == Unknown ==> r == Default
  {
    if f == Unknown then Default else f
  }

  /** `CamelCase`: the name of a format on the wire. Only `Unknown` renders
      as the empty string; every other name starts with a capital letter. */
  function CamelCase(f: DataFormat): (name: string)
    ensures name == "" <==> f == Unknown
    ensures name != "" ==> 'A' <= name[0] <= 'Z'
  {
    match f
    case Unknown => ""
    case Avro => "Avro"
    case ApacheAvro => "ApacheAvro"
    case Csv => "Csv"
    case Json => "Json"
    case MultiJson => "MultiJson"
    case Orc => "Orc"
    case Parquet => "Parquet"
    case Psv => "Psv"
    case Raw => "Raw"
    case Scsv => "Scsv"
    case Sohsv => "Sohsv"
    case SStream => "SStream"
    case Tsv => "Tsv"
    case Tsve => "Tsve"
    case Txt => "Txt"
    case W3cLogFile => "W3CLogFile"
    case SingleJson => "SingleJson"
  }

  /** The reading a receiver gives to a wire name: the format it names, if any. */
  function FormatNamed(name: string): (f: Option<DataFormat>)
    ensures f != Some(Unknown)
  {
    if name == "Avro" then Some(Avro)
    else if name == "ApacheAvro" then Some(ApacheAvro)
    else if name == "Csv" then Some(Csv)
    else if name == "Json" then Some(Json)
    else if name == "MultiJson" then Some(MultiJson)
    else if name == "Orc" then Some(Orc)
    else if name == "Parquet" then Some(Parquet)
    else if name == "Psv" then Some(Psv)
    else if name == "Raw" then Some(Raw)
    else if name == "Scsv" then Some(Scsv)
    else if name == "Sohsv" then Some(Sohsv)
    else if name == "SStream" then Some(SStream)
    else if name == "Tsv" then Some(Tsv)
    else if name == "Tsve" then Some(Tsve)
    else if name == "Txt" then Some(Txt)
    else if name == "W3CLogFile" then Some(W3cLogFile)
    else if name == "SingleJson" then Some(SingleJson)
    else None
  }

  /** Every chosen format is read back from its wire name; the unset one has no name. */
  lemma CamelCaseRoundTrip(f: DataFormat)
    ensures FormatNamed(CamelCase(f)) == if f == Unknown then None else Some(f)
  {
  }

  /** Distinct formats have distinct wire names. */
  lemma CamelCaseInjective(f: DataFormat, g: DataFormat)
    requires CamelCase(f) == CamelCase(g)
    ensures f == g
  {
    CamelCaseRoundTrip(f);
    CamelCaseRoundTrip(g);
  }

  /** What goes on the wire, `CamelCase(KnownOrDefault(f))`, always names a
      concrete format: `f` itself when it was chosen, the default otherwise. */
  lemma WireNameIsKnown(f: DataFormat)
    ensures FormatNamed(CamelCase(KnownOrDefault(f))) == Some(KnownOrDefault(f))
    ensures CamelCase(KnownOrDefault(f)) != ""
  {
    CamelCaseRoundTrip(KnownOrDefault(f));
  }
}
