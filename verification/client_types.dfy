/** Values the web client's pages share: the notice bar and the image
    analysis the server returns. */
module ClientTypes {

  datatype Severity = SuccessAlert | ErrorAlert

  /** The snackbar notice: shown or not, its text and its colour. */
  datatype Snackbar = Snackbar(open: bool, message: string, severity: Severity)

  const ClosedSnackbar := Snackbar(false, "", SuccessAlert)

  /** The `analise` field of the analysis response: a string, or any other
      JSON value, given here with the text `JSON.stringify` makes of it. */
  datatype Analysis = Text(text: string) | Json(stringified: string)

  /** `typeof a === 'string' ? a : JSON.stringify(a)`. */
  function AnalysisText(a: Analysis): (s: string)
    ensures a.Text? ==> s == a.text
    ensures a.Json? ==> s == a.stringified
  {
    match a
    case Text(t) => t
    case Json(j) => j
  }
}
