/**
 * The end of `get_google_sheets_data`: how the answer of the spreadsheet
 * service becomes either the rows of the sheet or a message string.
 * Credentials and the request itself are outside the model; the answer they
 * produce is an input.
 */
module Sheets {

  datatype Option<T> = None | Some(value: T)

  type Row = seq<string>

  /** What the request for the cell range produced: a response whose
      "values" entry may be missing, or an `HttpError` with its text. */
  datatype SheetsResponse = Response(values: Option<seq<Row>>) | HttpFailure(error: string)

  /** What `get_google_sheets_data` returns. In the program this is an
      untagged union of a list of rows and a string; callers tell the two
      apart by the type of the value. */
  datatype SheetData = Rows(rows: seq<Row>) | Message(text: string)

  const NoDataMessage := "Nenhum dado encontrado."

  /** `result.get("values", [])`: a missing entry reads as an empty range. */
  function ValuesOf(values: Option<seq<Row>>): (rows: seq<Row>)
    ensures values == None ==> rows == []
    ensures values.Some? ==> rows == values.value
  {
    match values
    case None => []
    case Some(rows) => rows
  }

  /** Rows come back only from a response that has at least one row, and they
      are that response's rows; a failure yields its error text, and an empty
      or missing range yields the fixed "no data" message. */
  function Fetch(response: SheetsResponse): (d: SheetData)
    ensures d.Rows? <==> response.Response? && ValuesOf(response.values) != []
    ensures d.Rows? ==> d.rows != [] && d.rows == ValuesOf(response.values)
    ensures response.HttpFailure? ==> d == Message(response.error)
    ensures response.Response? && ValuesOf(response.values) == [] ==> d == Message(NoDataMessage)
  {
    match response
    case HttpFailure(error) => Message(error)
    case Response(values) =>
      var rows := ValuesOf(values);
      if rows == [] then Message(NoDataMessage) else Rows(rows)
  }

  /** The caller's `isinstance(data, str)`: true of the message half of the
      union and false of the rows half. */
  predicate IsError(d: SheetData)
    ensures IsError(d) <==> !d.Rows?
  {
    d.Message?
  }

  /** A fetch is an error exactly when the request failed or the range held no
      rows; a missing "values" entry counts as an empty range. */
  lemma FetchErrorCases(response: SheetsResponse)
    ensures IsError(Fetch(response)) <==>
      response.HttpFailure? || response.values == None || response.values == Some([])
  {
  }
}
