/** `metrics/utils/date_helper.py`: ISO 8601 text to a datetime. The parse itself is
    Python's `datetime.fromisoformat`, which this model does not reimplement: every
    function that parses a date takes it as the parameter `fromIsoFormat`, whose `None`
    stands for the ValueError that the helper turns into `None`. */
module DateHelper {
  import opened Wrappers
  import Strings

  /** A Python `datetime`; no field of it is inspected by the modelled code. */
  datatype DateTime = DateTime(year: int, month: int, day: int, hour: int, minute: int,
                               second: int, microsecond: int, utcOffsetMinutes: Option<int>)

  const NoDateMessage := "No date string provided."

  /** The text `fromisoformat` is given: every `Z` rewritten as the offset `+00:00`. */
  function UtcText(text: string): (t: string)
    ensures 'Z' !in t
  {
    Strings.ReplaceChar(text, 'Z', "+00:00")
  }

  /** `isostr_to_datetime(s)`: a missing or empty string raises ValueError; otherwise
      `Z` is rewritten as `+00:00` and the text is parsed. */
  function IsoStrToDatetime(fromIsoFormat: string -> Option<DateTime>, s: Option<string>): (r: Result<Option<DateTime>>)
    ensures r.Err? <==> s == None || s == Some("")
    ensures r.Err? ==> r.error == ValueError(NoDateMessage)
    ensures r.Ok? ==> r.value == fromIsoFormat(UtcText(s.value))
  {
    match s
    case None => Err(ValueError(NoDateMessage))
    case Some(text) =>
      if text == "" then Err(ValueError(NoDateMessage))
      else Ok(fromIsoFormat(UtcText(text)))
  }
}
