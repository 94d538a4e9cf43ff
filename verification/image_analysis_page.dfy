/** src/pages/ImageAnalysisPage.tsx of the web client: the chosen file, the
    latest result and the history of analyses, newest first. */
module ImageAnalysisUi {
  import opened Wrappers
  import opened ClientTypes

  /** A file picked or dropped by the user; only its name matters here. */
  datatype File = File(name: string)

  /** One history entry. */
  datatype AnalysisEntry = AnalysisEntry(fileName: string, analysis: string)

  const Analysed: string := "Imagem analisada com sucesso!"
  const Failed: string := "Erro ao analisar imagem."

  /** The file a selection yields: its first file, or none for an empty
      selection. */
  function FirstFile(files: seq<File>): (r: Option<File>)
    ensures r.None? <==> files == []
    ensures r.Some? ==> r.value == files[0]
  {
    if files == [] then None else Some(files[0])
  }

  /** The history after a submit of `f`: a successful analysis goes in
      front, the older entries keep their order behind it; a failure
      leaves the history as it was. */
  function HistoryAfter(h: seq<AnalysisEntry>, f: File, outcome: Option<Analysis>): (r: seq<AnalysisEntry>)
    ensures outcome.None? ==> r == h
    ensures outcome.Some? ==> |r| == |h| + 1 && r[1..] == h
    ensures outcome.Some? ==> r[0] == AnalysisEntry(f.name, AnalysisText(outcome.value))
  {
    if outcome.Some? then [AnalysisEntry(f.name, AnalysisText(outcome.value))] + h else h
  }

  /** The page's state. `loading` is the shared loading overlay. */
  class ImageAnalysisPage {
    var file: Option<File>
    var result: string
    var history: seq<AnalysisEntry>
    var snackbar: Snackbar
    var loading: bool

    /** The submit button is disabled while no file is chosen. */
    predicate SubmitDisabled()
      reads this
    {
      file.None?
    }

    constructor()
      ensures file == None && result == "" && history == []
      ensures snackbar == ClosedSnackbar && !loading
      ensures SubmitDisabled()
    {
      file := None;
      result := "";
      history := [];
      snackbar := ClosedSnackbar;
      loading := false;
    }

    /** A pick or a drop: a non-empty selection chooses its first file and
        clears the shown result; an empty one changes nothing. */
    method Select(files: seq<File>)
      modifies this
      ensures file == (if files == [] then old(file) else FirstFile(files))
      ensures result == (if files == [] then old(result) else "")
      ensures history == old(history) && snackbar == old(snackbar) && loading == old(loading)
    {
      if |files| > 0 {
        file := Some(files[0]);
        result := "";
      }
    }

    /** `handleFileChange`: `files` is `None` when the input reports no list. */
    method HandleFileChange(files: Option<seq<File>>)
      modifies this
      ensures var picked := files.GetOr([]);
              && file == (if picked == [] then old(file) else Some(picked[0]))
              && result == (if picked == [] then old(result) else "")
      ensures history == old(history) && snackbar == old(snackbar) && loading == old(loading)
    {
      Select(files.GetOr([]));
    }

    /** `handleDrop`. */
    method HandleDrop(files: seq<File>)
      modifies this
      ensures file == (if files == [] then old(file) else Some(files[0]))
      ensures result == (if files == [] then old(result) else "")
      ensures history == old(history) && snackbar == old(snackbar) && loading == old(loading)
    {
      Select(files);
    }

    /** `handleSubmit`; `outcome` is the analysis, `None` when the request
        fails. Without a file nothing happens. On success the result shows
        the analysis text and the history gains it in front; on failure only
        the error notice is set. The loading overlay is off afterwards. */
    method HandleSubmit(outcome: Option<Analysis>)
      modifies this
      ensures old(file).None? ==>
                result == old(result) && history == old(history)
                && snackbar == old(snackbar) && loading == old(loading)
      ensures old(file).Some? ==>
                && history == HistoryAfter(old(history), old(file).value, outcome)
                && result == (if outcome.Some? then AnalysisText(outcome.value) else old(result))
                && snackbar == (if outcome.Some? then Snackbar(true, Analysed, SuccessAlert)
                                else Snackbar(true, Failed, ErrorAlert))
                && !loading
      ensures file == old(file)
    {
      if file.None? {
        return;
      }
      loading := true;
      if outcome.Some? {
        var analysis := AnalysisText(outcome.value);
        result := analysis;
        history := [AnalysisEntry(file.value.name, analysis)] + history;
        snackbar := Snackbar(true, Analysed, SuccessAlert);
      } else {
        snackbar := Snackbar(true, Failed, ErrorAlert);
      }
      loading := false;
    }

    method CloseSnackbar()
      modifies this
      ensures snackbar == old(snackbar).(open := false)
      ensures file == old(file) && result == old(result) && history == old(history) && loading == old(loading)
    {
      snackbar := snackbar.(open := false);
    }
  }
}
