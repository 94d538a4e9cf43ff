/** src/pages/ChatPage.tsx of the web client: the transcript shown, what
    each send and each image upload add to it, and what is posted to the
    save endpoint. */
module ChatUi {
  import opened Wrappers
  import opened Records
  import opened ClientTypes
  import opened JsText

  const GreetingText: string :=
    "Olá! Eu sou sua IA Nutricionista 😊 Pergunte algo ou escolha uma sugestão abaixo."
  const ConnectionError: string := "Desculpe, houve um erro ao conectar."
  const ImageAnalysed: string := "Imagem analisada!"
  const ImageFailed: string := "Falha ao analisar imagem."
  const Copied: string := "Copiado!"

  /** The transcript a failed history load leaves: one greeting. */
  function Greeting(now: string): ChatMessage {
    ChatMessage("bot", GreetingText, Some("text"), None, now)
  }

  /** `{ ...msg, imageUrl: undefined }`: the message as it is persisted. */
  function Stripped(m: ChatMessage): (s: ChatMessage)
    ensures s.imageUrl.None?
    ensures s.role == m.role && s.text == m.text && s.msgType == m.msgType && s.createdAt == m.createdAt
  {
    m.(imageUrl := None)
  }

  /** The messages one send adds: none for a blank input; otherwise the user
      message with the trimmed text and then exactly one bot message, the
      server's reply or, when the request fails, the fixed error text. */
  function SendAdds(input: string, reply: Option<string>, userAt: string, botAt: string): (r: seq<ChatMessage>)
    ensures r == [] <==> Trim(input) == []
    ensures r != [] ==> |r| == 2
    ensures r != [] ==> r[0] == ChatMessage("user", Trim(input), Some("text"), None, userAt)
    ensures r != [] ==> r[1].role == "bot" && r[1].msgType == Some("text") && r[1].imageUrl.None?
    ensures r != [] ==> r[1].text == (if reply.Some? then reply.value else ConnectionError)
  {
    var text := Trim(input);
    if text == [] then []
    else [ChatMessage("user", text, Some("text"), None, userAt),
          ChatMessage("bot", if reply.Some? then reply.value else ConnectionError, Some("text"), None, botAt)]
  }

  /** A send adds nothing exactly when the input is all white space. */
  lemma SendBlank(input: string, reply: Option<string>, userAt: string, botAt: string)
    ensures SendAdds(input, reply, userAt, botAt) == [] <==>
              forall k :: 0 <= k < |input| ==> IsSpace(input[k])
  {
    TrimBlank(input);
  }

  /** The messages one image upload adds: the user's image message, then
      one bot message with the analysis as text when the analysis
      succeeds, and nothing more when it fails. Both carry the preview. */
  function ImageAdds(fileName: string, preview: string, outcome: Option<Analysis>,
                     userAt: string, botAt: string): (r: seq<ChatMessage>)
    ensures |r| == (if outcome.Some? then 2 else 1)
    ensures r[0] == ChatMessage("user", fileName, Some("image"), Some(preview), userAt)
    ensures outcome.Some? ==>
              r[1] == ChatMessage("bot", AnalysisText(outcome.value), Some("image"), Some(preview), botAt)
  {
    [ChatMessage("user", fileName, Some("image"), Some(preview), userAt)]
    + (if outcome.Some?
       then [ChatMessage("bot", AnalysisText(outcome.value), Some("image"), Some(preview), botAt)]
       else [])
  }

  function StripAll(ms: seq<ChatMessage>): (r: seq<ChatMessage>)
    ensures |r| == |ms|
    ensures forall k :: 0 <= k < |ms| ==> r[k] == Stripped(ms[k])
  {
    seq(|ms|, k requires 0 <= k < |ms| => Stripped(ms[k]))
  }

  /** Appending stripped copies keeps every persisted message free of an
      image URL. */
  lemma StrippedAppend(saved: seq<ChatMessage>, added: seq<ChatMessage>)
    requires forall k :: 0 <= k < |saved| ==> saved[k].imageUrl.None?
    ensures forall k :: 0 <= k < |saved + StripAll(added)| ==> (saved + StripAll(added))[k].imageUrl.None?
  {
    var all := saved + StripAll(added);
    forall k | 0 <= k < |all| ensures all[k].imageUrl.None? {
      if k >= |saved| {
        assert all[k] == Stripped(added[k - |saved|]);
      }
    }
  }

  /** The page's state. `saved` is the list of bodies posted to the save
      endpoint; the outcome of those posts is ignored by the page. */
  class ChatPage {
    var mensagem: string
    var historico: seq<ChatMessage>
    var snackbar: Snackbar
    var imgLoading: bool
    var loading: bool
    var saved: seq<ChatMessage>

    /** No persisted message carries an image URL. */
    predicate Valid()
      reads this
    {
      forall k :: 0 <= k < |saved| ==> saved[k].imageUrl.None?
    }

    /** The send button is disabled for a blank input or while an image is
        being analysed. */
    predicate SendDisabled()
      reads this
      ensures SendDisabled() <==>
        imgLoading || forall k :: 0 <= k < |mensagem| ==> IsSpace(mensagem[k])
    {
      TrimBlank(mensagem);
      Trim(mensagem) == [] || imgLoading
    }

    constructor()
      ensures Valid()
      ensures mensagem == "" && historico == [] && snackbar == ClosedSnackbar
      ensures !imgLoading && !loading && saved == []
    {
      mensagem := "";
      historico := [];
      snackbar := ClosedSnackbar;
      imgLoading := false;
      loading := false;
      saved := [];
    }

    /** The mount effect: the stored transcript, or one greeting when the
        request fails (`outcome` is `None`). */
    method LoadHistory(outcome: Option<seq<ChatMessage>>, now: string)
      requires Valid()
      modifies this
      ensures Valid()
      ensures historico == (if outcome.Some? then outcome.value else [Greeting(now)])
      ensures mensagem == old(mensagem) && snackbar == old(snackbar) && imgLoading == old(imgLoading)
      ensures loading == old(loading) && saved == old(saved)
    {
      if outcome.Some? {
        historico := outcome.value;
      } else {
        historico := [Greeting(now)];
      }
    }

    /** Typing in the input, or picking a suggestion. */
    method SetMessage(text: string)
      requires Valid()
      modifies this
      ensures Valid()
      ensures mensagem == text
      ensures historico == old(historico) && snackbar == old(snackbar) && imgLoading == old(imgLoading)
      ensures loading == old(loading) && saved == old(saved)
    {
      mensagem := text;
    }

    /** `enviarMensagem`. `reply` is the server's response text, `None`
        when the request fails; `userAt` and `botAt` are the clock readings
        for the two messages. A blank input changes nothing; otherwise both
        added messages are persisted, the input is cleared and the loading
        overlay is off again. */
    method Send(reply: Option<string>, userAt: string, botAt: string)
      requires Valid()
      modifies this
      ensures Valid()
      ensures var added := SendAdds(old(mensagem), reply, userAt, botAt);
              && historico == old(historico) + added
              && saved == old(saved) + StripAll(added)
              && mensagem == (if added == [] then old(mensagem) else "")
              && loading == (if added == [] then old(loading) else false)
      ensures snackbar == old(snackbar) && imgLoading == old(imgLoading)
    {
      var added := SendAdds(mensagem, reply, userAt, botAt);
      if added != [] {
        Record(added);
      }
    }

    /** The state changes of a non-blank send: the added messages are shown
        and persisted, the input is cleared and the loading overlay has been
        switched on and off again. */
    method Record(added: seq<ChatMessage>)
      requires Valid()
      modifies this
      ensures Valid()
      ensures historico == old(historico) + added && saved == old(saved) + StripAll(added)
      ensures mensagem == "" && !loading
      ensures snackbar == old(snackbar) && imgLoading == old(imgLoading)
    {
      StrippedAppend(saved, added);
      loading := true;
      historico := historico + added;
      saved := saved + StripAll(added);
      loading := false;
      mensagem := "";
    }

    /** `handleFile`. `preview` is the object URL made for the file;
        `outcome` is the analysis, `None` when the request fails. The
        notice reports the outcome and the upload indicator is off again. */
    method HandleFile(fileName: string, preview: string, outcome: Option<Analysis>,
                      userAt: string, botAt: string)
      requires Valid()
      modifies this
      ensures Valid()
      ensures var added := ImageAdds(fileName, preview, outcome, userAt, botAt);
              && historico == old(historico) + added
              && saved == old(saved) + StripAll(added)
      ensures snackbar == (if outcome.Some? then Snackbar(true, ImageAnalysed, SuccessAlert)
                           else Snackbar(true, ImageFailed, ErrorAlert))
      ensures !imgLoading
      ensures mensagem == old(mensagem) && loading == old(loading)
    {
      imgLoading := true;
      var userMsg := ChatMessage("user", fileName, Some("image"), Some(preview), userAt);
      historico := historico + [userMsg];
      saved := saved + [Stripped(userMsg)];
      if outcome.Some? {
        var botMsg := ChatMessage("bot", AnalysisText(outcome.value), Some("image"), Some(preview), botAt);
        historico := historico + [botMsg];
        saved := saved + [Stripped(botMsg)];
        snackbar := Snackbar(true, ImageAnalysed, SuccessAlert);
      } else {
        snackbar := Snackbar(true, ImageFailed, ErrorAlert);
      }
      imgLoading := false;
    }

    /** `copyText`: the clipboard write is outside the model; the notice
        confirms it. */
    method CopyText()
      requires Valid()
      modifies this
      ensures Valid()
      ensures snackbar == Snackbar(true, Copied, SuccessAlert)
      ensures mensagem == old(mensagem) && historico == old(historico) && imgLoading == old(imgLoading)
      ensures loading == old(loading) && saved == old(saved)
    {
      snackbar := Snackbar(true, Copied, SuccessAlert);
    }

    method CloseSnackbar()
      requires Valid()
      modifies this
      ensures Valid()
      ensures snackbar == old(snackbar).(open := false)
      ensures mensagem == old(mensagem) && historico == old(historico) && imgLoading == old(imgLoading)
      ensures loading == old(loading) && saved == old(saved)
    {
      snackbar := snackbar.(open := false);
    }
  }
}
