/**
 * The scripting function `from_csv(source[, delimiterChar[, quoteChar[,
 * recordSeparator[, header]]]])`: parses a CSV text into a list of maps, one
 * per record, keyed by column name.
 *
 * Apache Commons CSV is not part of this model: building the parser and
 * reading its records is the parameter `parse` (None when it throws), and
 * `CSVRecord.toMap()` is the parameter `toMap`. The format handed to it is
 * modelled field by field.
 */
module FromCsv {
  import opened Wrappers

  const ErrorMessage := "Usage: ${from_csv(source[, delimiterChar[, quoteChar[, recordSeparator[, header]]]])}. Example: ${from_csv('COL1;COL2;COL3\none;two;three')}"
  const ErrorMessageJs := "Usage: ${{Structr.from_csv(source[, delimiterChar[, quoteChar[, recordSeparator[, header]]]])}}. Example: ${{Structr.from_csv('COL1;COL2;COL3\none;two;three')}}"

  const DefaultDelimiter := ";"
  const DefaultQuote := "\""
  const DefaultRecordSeparator := "\n"

  /**
   * An argument of the call: `null`, a `String`, a `Collection` (its
   * elements and its `toString()`), or any other object (its `toString()`).
   */
  datatype Arg = Null | Str(s: string) | Collection(items: seq<Arg>, repr: string) | Other(repr: string)

  datatype QuoteMode = QuoteAll | QuoteMinimal | QuoteNonNumeric | QuoteNone

  /**
   * The fields of a `CSVFormat` the function sets. `header` is None when no
   * header was given, and `Some(names)` after `withHeader(names)`; a null
   * column name is `None`.
   */
  datatype CsvFormat = CsvFormat(
    delimiter: char,
    quote: Option<char>,
    recordSeparator: Option<string>,
    header: Option<seq<Option<string>>>,
    skipHeaderRecord: bool,
    ignoreEmptyLines: bool,
    ignoreSurroundingSpaces: bool,
    quoteMode: Option<QuoteMode>)

  /** What `apply` returns: the list of row maps, or a string. */
  datatype CsvResult = Objects(rows: seq<map<string, string>>) | Text(s: string)

  /** `usage`: the message for the script context the call came from. */
  function Usage(inJavaScript: bool): (r: string)
    ensures r == ErrorMessageJs <==> inJavaScript
    ensures r == ErrorMessage <==> !inJavaScript
  {
    if inJavaScript then ErrorMessageJs else ErrorMessage
  }

  /** Between one and five arguments, none of them null. */
  predicate ValidArguments(sources: seq<Arg>) {
    1 <= |sources| <= 5 && forall i :: 0 <= i < |sources| ==> sources[i] != Null
  }

  /** `toString()` of a non-null argument. */
  function ArgString(a: Arg): string
    requires a != Null
  {
    match a
    case Str(s) => s
    case Collection(_, repr) => repr
    case Other(repr) => repr
  }

  /**
   * `toArray(new String[]{})` of a collection: null elements stay null, and
   * any element that is not a `String` makes it throw an `ArrayStoreException` (None).
   */
  function HeaderNames(items: seq<Arg>): (r: Option<seq<Option<string>>>)
    ensures r.Some? <==> forall i :: 0 <= i < |items| ==> items[i].Null? || items[i].Str?
    ensures r.Some? ==> |r.value| == |items|
    ensures r.Some? ==> forall i :: 0 <= i < |items| ==>
              (r.value[i].None? <==> items[i].Null?) && (items[i].Str? ==> r.value[i] == Some(items[i].s))
  {
    if items == [] then Some([])
    else
      var rest := HeaderNames(items[1..]);
      match items[0]
      case Null => if rest.Some? then Some([None] + rest.value) else None
      case Str(s) => if rest.Some? then Some([Some(s)] + rest.value) else None
      case _ => None
  }

  /**
   * The string argument at `index`, or `default` when the call has fewer
   * arguments; None where the cast `(String)` throws a `ClassCastException`.
   */
  function StringParam(sources: seq<Arg>, index: nat, default: string): Option<string> {
    if index >= |sources| then Some(default)
    else if sources[index].Str? then Some(sources[index].s)
    else None
  }

  /**
   * The format a valid call parses with, stated position by position: None
   * where building it throws (a non-string delimiter, quote or separator, an
   * empty delimiter or quote, a header collection with a non-string element).
   */
  function ResolveFormat(sources: seq<Arg>): (r: Option<CsvFormat>)
    requires ValidArguments(sources)
    ensures r.Some? <==>
              && (|sources| >= 2 ==> sources[1].Str? && sources[1].s != "")
              && (|sources| >= 3 ==> sources[2].Str? && sources[2].s != "")
              && (|sources| >= 4 ==> sources[3].Str?)
              && (|sources| == 5 && sources[4].Collection? ==> HeaderNames(sources[4].items).Some?)
    ensures r.Some? ==> r.value.delimiter == if |sources| >= 2 then sources[1].s[0] else ';'
    ensures r.Some? ==> r.value.quote == Some(if |sources| >= 3 then sources[2].s[0] else '"')
    ensures r.Some? ==> r.value.recordSeparator == Some(if |sources| >= 4 then sources[3].s else "\n")
    ensures r.Some? ==> (!r.value.skipHeaderRecord <==> |sources| == 5 && sources[4].Collection?)
    ensures r.Some? && r.value.skipHeaderRecord ==> r.value.header == Some([])
    ensures r.Some? && !r.value.skipHeaderRecord ==> r.value.header == HeaderNames(sources[4].items)
    ensures r.Some? ==> r.value.ignoreEmptyLines && r.value.ignoreSurroundingSpaces && r.value.quoteMode == Some(QuoteAll)
  {
    var delimiter := StringParam(sources, 1, DefaultDelimiter);
    var quote := StringParam(sources, 2, DefaultQuote);
    var separator := StringParam(sources, 3, DefaultRecordSeparator);
    var custom := |sources| == 5 && sources[4].Collection?;
    var names := if custom then HeaderNames(sources[4].items) else Some([]);
    if delimiter.None? || quote.None? || separator.None? || names.None? || delimiter.value == "" || quote.value == "" then
      None
    else
      Some(CsvFormat(delimiter.value[0], Some(quote.value[0]), separator, names, !custom, true, true, Some(QuoteAll)))
  }

  /** One row map per record, in the order of the records. */
  function Rows<R>(records: seq<R>, toMap: R -> map<string, string>): (rows: seq<map<string, string>>)
    ensures |rows| == |records|
    ensures forall i :: 0 <= i < |records| ==> rows[i] == toMap(records[i])
  {
    seq(|records|, i requires 0 <= i < |records| => toMap(records[i]))
  }

  /**
   * What `from_csv` returns: the usage message for an invalid call, the rows
   * of the parsed records when everything succeeds, and the empty string
   * when anything throws.
   */
  function Outcome<R>(sources: seq<Arg>, inJavaScript: bool,
                      parse: (string, CsvFormat) -> Option<seq<R>>,
                      toMap: R -> map<string, string>): (r: CsvResult)
    ensures r == Text(Usage(inJavaScript)) <==> !ValidArguments(sources)
    ensures r.Objects? <==>
              ValidArguments(sources) && ResolveFormat(sources).Some?
              && parse(ArgString(sources[0]), ResolveFormat(sources).value).Some?
    ensures r.Objects? ==>
              var records := parse(ArgString(sources[0]), ResolveFormat(sources).value).value;
              |r.rows| == |records| && forall i :: 0 <= i < |records| ==> r.rows[i] == toMap(records[i])
    ensures ValidArguments(sources) && r.Text? ==> r.s == ""
  {
    if !ValidArguments(sources) then Text(Usage(inJavaScript))
    else match ResolveFormat(sources)
      case None => Text("")
      case Some(format) =>
        match parse(ArgString(sources[0]), format)
        case None => Text("")
        case Some(records) => Objects(Rows(records, toMap))
  }

  /**
   * `apply`: reads the optional arguments through the fall-through switch,
   * builds the format one `with...` call at a time, and collects the map of
   * every record; any exception on the way yields the empty string.
   */
  method Apply<R>(sources: seq<Arg>, inJavaScript: bool,
                  parse: (string, CsvFormat) -> Option<seq<R>>,
                  toMap: R -> map<string, string>) returns (r: CsvResult)
    ensures r == Outcome(sources, inJavaScript, parse, toMap)
  {
    if !ValidArguments(sources) {
      return Text(Usage(inJavaScript));
    }
    var source := ArgString(sources[0]);
    var delimiter := DefaultDelimiter;
    var quoteChar := DefaultQuote;
    var recordSeparator := DefaultRecordSeparator;
    var customColumnNamesSupplied := false;

    // The switch on the argument count falls through from case 5 down to case 2.
    var n := |sources|;
    if n == 5 {
      customColumnNamesSupplied := sources[4].Collection?;
    }
    if n >= 4 {
      if !sources[3].Str? {
        return Text("");
      }
      recordSeparator := sources[3].s;
    }
    if n >= 3 {
      if !sources[2].Str? {
        return Text("");
      }
      quoteChar := sources[2].s;
    }
    if n >= 2 {
      if !sources[1].Str? {
        return Text("");
      }
      delimiter := sources[1].s;
    }

    if delimiter == "" {
      return Text("");
    }
    // CSVFormat.newFormat: no quote, no header, no record separator, every flag off.
    var format := CsvFormat(delimiter[0], None, None, None, false, false, false, None);
    if customColumnNamesSupplied {
      var names := HeaderNames(sources[4].items);
      if names.None? {
        return Text("");
      }
      format := format.(header := names).(skipHeaderRecord := false);
    } else {
      format := format.(header := Some([])).(skipHeaderRecord := true);
    }
    if quoteChar == "" {
      return Text("");
    }
    format := format.(quote := Some(quoteChar[0]));
    format := format.(recordSeparator := Some(recordSeparator));
    format := format.(ignoreEmptyLines := true);
    format := format.(ignoreSurroundingSpaces := true);
    format := format.(quoteMode := Some(QuoteAll));

    var records := parse(source, format);
    if records.None? {
      return Text("");
    }
    var objects: seq<map<string, string>> := [];
    var i := 0;
    while i < |records.value|
      invariant 0 <= i <= |records.value|
      invariant |objects| == i
      invariant forall j :: 0 <= j < i ==> objects[j] == toMap(records.value[j])
    {
      objects := objects + [toMap(records.value[i])];
      i := i + 1;
    }
    return Objects(objects);
  }

  /** With the source alone the format is `;`-delimited, `"`-quoted, newline-separated, headed by its first record. */
  lemma SourceAloneUsesDefaults(source: Arg)
    requires source != Null
    ensures ResolveFormat([source]) == Some(CsvFormat(';', Some('"'), Some("\n"), Some([]), true, true, true, Some(QuoteAll)))
  {
  }

  /** Passing an omitted argument's default explicitly changes nothing. */
  lemma ExplicitDefaultsChangeNothing(sources: seq<Arg>)
    requires ValidArguments(sources) && |sources| <= 3
    ensures var d := [DefaultDelimiter, DefaultQuote, DefaultRecordSeparator][|sources| - 1];
            ResolveFormat(sources + [Str(d)]) == ResolveFormat(sources)
  {
    var d := [DefaultDelimiter, DefaultQuote, DefaultRecordSeparator][|sources| - 1];
    var longer := sources + [Str(d)];
    assert longer[..|sources|] == sources;
  }

  /** A fifth argument that is not a collection is ignored: the first record still names the columns. */
  lemma NonCollectionHeaderIgnored(sources: seq<Arg>, header: Arg)
    requires ValidArguments(sources) && |sources| == 4 && header != Null && !header.Collection?
    ensures ResolveFormat(sources + [header]) == ResolveFormat(sources)
  {
    var longer := sources + [header];
    assert longer[1] == sources[1] && longer[2] == sources[2] && longer[3] == sources[3];
  }

  /**
   * A collection of column names replaces the header record: the format
   * carries those names and no longer skips the first record.
   */
  lemma CollectionHeaderKeepsFirstRecord(sources: seq<Arg>, items: seq<Arg>, repr: string)
    requires ValidArguments(sources) && |sources| == 4 && ResolveFormat(sources).Some?
    requires |items| > 0 && forall i :: 0 <= i < |items| ==> items[i].Str?
    ensures var f := ResolveFormat(sources + [Collection(items, repr)]);
            && f.Some?
            && f.value == ResolveFormat(sources).value.(header := f.value.header, skipHeaderRecord := false)
            && |f.value.header.value| == |items|
            && forall i :: 0 <= i < |items| ==> f.value.header.value[i] == Some(items[i].s)
  {
    var longer := sources + [Collection(items, repr)];
    assert longer[1] == sources[1] && longer[2] == sources[2] && longer[3] == sources[3];
  }
}
