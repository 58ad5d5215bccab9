/**
 * The multer configuration of the upload route: disk storage under a fixed
 * directory with a timestamped file name, and a MIME-type whitelist.
 */
module UploadMiddleware {
  import opened Wrappers
  import opened Text

  const CsvMime: string := "text/csv"
  const LegacyExcelMime: string := "application/vnd.ms-excel"
  const XlsxMime: string := "application/vnd.openxmlformats-officedocument.spreadsheetml.sheet"

  /** Every stored upload lands in this directory, whatever the request. */
  const Destination: string := "uploads/"

  const FilterRejection: string := "Only .csv, .xls, .xlsx allowed!"

  /** The three MIME types the whitelist lets through. */
  const AcceptedMimes: set<string> := {CsvMime, LegacyExcelMime, XlsxMime}

  /** What the filter reports to multer: keep the file, or fail the upload with an error. */
  datatype FilterDecision = Accept | Reject(message: string)

  /** The whitelist: exactly the accepted MIME types pass; anything else fails with the fixed message. */
  function FileFilter(mimetype: string): (d: FilterDecision)
    ensures d.Accept? <==> mimetype in AcceptedMimes
    ensures d.Reject? ==> d.message == FilterRejection
  {
    if mimetype == CsvMime || mimetype == LegacyExcelMime || mimetype == XlsxMime then
      Accept
    else
      Reject(FilterRejection)
  }

  /** JSON uploads never reach the handler through this filter. */
  lemma JsonRejected()
    ensures FileFilter("application/json") == Reject(FilterRejection)
  {
  }

  /**
   * The name a stored upload gets: the upload time in milliseconds, a dash,
   * then the client's original name, which therefore survives as a suffix.
   */
  function StoredName(timestamp: nat, originalName: string): (name: string)
    ensures |name| > |originalName|
    ensures name[|name| - |originalName|..] == originalName
    ensures name[|name| - |originalName| - 1] == '-'
    ensures AllDigits(name[..|name| - |originalName| - 1])
  {
    DecimalString(timestamp) + "-" + originalName
  }

  /** Splits a stored name back into its upload time and original name, at the first dash. */
  function ParseStoredName(name: string): Option<(nat, string)>
  {
    match FirstIndexOf(name, '-')
    case None => None
    case Some(k) =>
      if k > 0 && AllDigits(name[..k]) then Some((ParseDecimal(name[..k]), name[k + 1..])) else None
  }

  /** The stored name determines both the upload time and the original name, even when the latter holds dashes. */
  lemma {:induction false} StoredNameRoundTrip(timestamp: nat, originalName: string)
    ensures ParseStoredName(StoredName(timestamp, originalName)) == Some((timestamp, originalName))
  {
    var digits := DecimalString(timestamp);
    var name := StoredName(timestamp, originalName);
    assert name[|digits|] == '-';
    forall j | 0 <= j < |digits|
      ensures name[j] != '-'
    {
      assert name[j] == digits[j];
    }
    assert FirstIndexOf(name, '-') == Some(|digits|);
    assert name[..|digits|] == digits;
    assert name[|digits| + 1..] == originalName;
    ParseDecimalInvertsDecimalString(timestamp);
  }
}
