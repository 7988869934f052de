/** The serialization formats a store can use. XML, YAML and CSV delegate to
    an abstract serializer and wrap its failures in a FormatException; JSON,
    the default, calls PHP's json_encode/json_decode, also abstract here,
    and throws a plain exception. */
module Formats {
  import opened Values
  import opened Exceptions

  datatype Format = Json | Xml | Yaml | Csv

  /** What a codec returns: the converted value; or the diagnostic of a
      failure the format handles (an InvalidArgumentException's message for
      the serializer, json_last_error_msg() for the JSON functions); or any
      other exception it throws, which the format does not catch. */
  datatype Coded<T> = Coded(value: T) | Invalid(diagnostic: string) | Thrown(exception: ForeignException)

  /** The serializer shared by the XML, YAML and CSV formats; the second
      argument is the wire format asked for. */
  datatype Serializer = Serializer(
    serialize: (PhpArray, Format) -> Coded<string>,
    deserialize: (string, Format) -> Coded<PhpArray>)

  /** PHP's json_encode and json_decode (a failed decode is the one that
      returns null). */
  datatype JsonFunctions = JsonFunctions(
    encode: PhpArray -> Coded<string>,
    decode: string -> Coded<PhpArray>)

  /** A format object: the variant and the codecs it delegates to. Only
      one half is used: the JSON format calls `json` and ignores
      `serializer`; XML, YAML and CSV call `serializer` and ignore `json`. */
  datatype Formatter = Formatter(format: Format, serializer: Serializer, json: JsonFunctions)

  /** The file extension of each format, separator included. */
  function Extension(f: Format): (ext: string)
    ensures |ext| >= 4 && ext[0] == '.'
    ensures f == Json ==> ext == ".json"
    ensures f == Xml ==> ext == ".xml"
    ensures f == Yaml ==> ext == ".yml"
    ensures f == Csv ==> ext == ".csv"
  {
    match f
    case Json => ".json"
    case Xml => ".xml"
    case Yaml => ".yml"
    case Csv => ".csv"
  }

  /** A file name's extension determines the format that wrote it. */
  lemma ExtensionInjective(f: Format, g: Format)
    requires Extension(f) == Extension(g)
    ensures f == g
  {
  }

  /** The codec a formatter encodes with. */
  function BackendEncode(fmt: Formatter, data: PhpArray): Coded<string> {
    if fmt.format == Json then fmt.json.encode(data) else fmt.serializer.serialize(data, fmt.format)
  }

  /** The codec a formatter decodes with. */
  function BackendDecode(fmt: Formatter, text: string): Coded<PhpArray> {
    if fmt.format == Json then fmt.json.decode(text) else fmt.serializer.deserialize(text, fmt.format)
  }

  /** `encode`: the codec's output unchanged, or its failure translated. A
      JSON output that PHP deems false is refused as well, and at that
      point json_last_error_msg() reports "No error". An exception the
      format does not catch passes through. */
  function Encode(fmt: Formatter, data: PhpArray): (r: Result<string>)
    ensures r.Ok? <==> BackendEncode(fmt, data).Coded? && (fmt.format == Json ==> !Falsy(BackendEncode(fmt, data).value))
    ensures r.Ok? ==> r.value == BackendEncode(fmt, data).value
    ensures BackendEncode(fmt, data).Thrown? ==> r == Err(Uncaught(BackendEncode(fmt, data).exception))
    ensures r.Err? && !BackendEncode(fmt, data).Thrown? && fmt.format != Json ==>
      r.error == FormatException("Error encoding data.", BackendEncode(fmt, data).diagnostic)
    ensures r.Err? && !BackendEncode(fmt, data).Thrown? && fmt.format == Json ==>
      r.error == PlainException("Error encoding data: " + if BackendEncode(fmt, data).Invalid? then BackendEncode(fmt, data).diagnostic else "No error")
  {
    match BackendEncode(fmt, data)
    case Thrown(e) => Err(Uncaught(e))
    case Invalid(d) =>
      if fmt.format == Json then Err(PlainException("Error encoding data: " + d))
      else Err(FormatException("Error encoding data.", d))
    case Coded(text) =>
      if fmt.format == Json && Falsy(text) then Err(PlainException("Error encoding data: " + "No error"))
      else Ok(text)
  }

  /** `decode`: the codec's array unchanged, or its failure translated; an
      exception the format does not catch passes through. */
  function Decode(fmt: Formatter, text: string): (r: Result<PhpArray>)
    ensures r.Ok? <==> BackendDecode(fmt, text).Coded?
    ensures r.Ok? ==> r.value == BackendDecode(fmt, text).value
    ensures BackendDecode(fmt, text).Thrown? ==> r == Err(Uncaught(BackendDecode(fmt, text).exception))
    ensures BackendDecode(fmt, text).Invalid? && fmt.format != Json ==>
      r.error == FormatException("Error decoding data.", BackendDecode(fmt, text).diagnostic)
    ensures BackendDecode(fmt, text).Invalid? && fmt.format == Json ==>
      r.error == PlainException("Error decoding data: " + BackendDecode(fmt, text).diagnostic)
  {
    match BackendDecode(fmt, text)
    case Thrown(e) => Err(Uncaught(e))
    case Invalid(d) =>
      if fmt.format == Json then Err(PlainException("Error decoding data: " + d))
      else Err(FormatException("Error decoding data.", d))
    case Coded(data) => Ok(data)
  }

  /** A format built on the serializer: its extension, its output and
      input passed through unchanged, the serializer's
      InvalidArgumentException wrapped in a FormatException with its
      message, and any other exception passed on. */
  ghost predicate SerializerFormat(fmt: Formatter, f: Format, ext: string, data: PhpArray, text: string) {
    fmt.format == f ==>
      Extension(f) == ext &&
      Encode(fmt, data) == (match fmt.serializer.serialize(data, f)
        case Coded(out) => Ok(out)
        case Invalid(m) => Err(FormatException("Error encoding data.", m))
        case Thrown(e) => Err(Uncaught(e))) &&
      Decode(fmt, text) == (match fmt.serializer.deserialize(text, f)
        case Coded(items) => Ok(items)
        case Invalid(m) => Err(FormatException("Error decoding data.", m))
        case Thrown(e) => Err(Uncaught(e)))
  }

  /** The XML format. */
  lemma XmlFormat(fmt: Formatter, data: PhpArray, text: string)
    ensures SerializerFormat(fmt, Xml, ".xml", data, text)
  {
  }

  /** The YAML format. */
  lemma YamlFormat(fmt: Formatter, data: PhpArray, text: string)
    ensures SerializerFormat(fmt, Yaml, ".yml", data, text)
  {
  }

  /** The CSV format. */
  lemma CsvFormat(fmt: Formatter, data: PhpArray, text: string)
    ensures SerializerFormat(fmt, Csv, ".csv", data, text)
  {
  }

  /** The codec's own round-trip law, which the model cannot prove about
      foreign code and so takes as a hypothesis. */
  ghost predicate BackendRoundTrips(fmt: Formatter) {
    forall data :: BackendEncode(fmt, data).Coded? ==>
      BackendDecode(fmt, BackendEncode(fmt, data).value) == Coded(data)
  }

  /** Whenever the codec round-trips, so does the format. */
  lemma RoundTrip(fmt: Formatter, data: PhpArray)
    requires BackendRoundTrips(fmt)
    requires Encode(fmt, data).Ok?
    ensures Decode(fmt, Encode(fmt, data).value) == Ok(data)
  {
  }
}
