/** What happens when the page's request meets the `/analyse` handler, and
    when the handler's reply comes back to the page. */
module Flow {
  import opened Values
  import opened JsText
  import Analyse
  import Client

  /** A prompt that is not blank always reaches the model, as the first
      part and trimmed. */
  lemma NonBlankPromptReachesModel(rawPrompt: string, fileDataUrl: Option<string>)
    requires !AllSpace(rawPrompt)
    ensures Client.Submit(rawPrompt, fileDataUrl).Send?
    ensures Analyse.Prepare(Some(Client.Submit(rawPrompt, fileDataUrl).body)).Invoke?
    ensures Analyse.Prepare(Some(Client.Submit(rawPrompt, fileDataUrl).body)).parts[0]
         == Analyse.Text(Trim(rawPrompt))
  {
    TrimEmptyIffAllSpace(rawPrompt);
  }

  /** A chosen image with a non-empty payload reaches the model as the last
      part, with the media type of its data URL, or `image/jpeg` when that
      media type is empty. */
  lemma ImageReachesModel(rawPrompt: string, mt: string, payload: string)
    requires ',' !in mt && Client.NoLineTerminator(mt)
    requires ',' !in payload && payload != ""
    ensures var url := Client.DataPrefix + mt + Client.Base64Suffix + "," + payload;
            var inv := Analyse.Prepare(Some(Client.Submit(rawPrompt, Some(url)).body));
            && inv.Invoke?
            && |inv.parts| == 2
            && inv.parts[1] == Analyse.InlineData(if mt == "" then Analyse.DefaultMimeType else mt, payload)
  {
    Client.DataUrlRoundTrip(mt, payload);
  }

  /** The page's guard and the handler's guard differ: a blank prompt with a
      file whose data URL carries no payload passes the page's check, and
      the handler then refuses it with 400 without calling the model. */
  lemma BlankPromptEmptyFileRejectedByServer<J>(
    rawPrompt: string, mt: string, call: seq<Analyse.Part> -> Option<string>, parse: string -> Option<J>)
    requires AllSpace(rawPrompt)
    requires ',' !in mt && Client.NoLineTerminator(mt)
    ensures var url := Client.DataPrefix + mt + Client.Base64Suffix + ",";
            && Client.Submit(rawPrompt, Some(url)).Send?
            && Analyse.Handle(Some(Client.Submit(rawPrompt, Some(url)).body), call, parse).reply.status == 400
            && Analyse.Handle(Some(Client.Submit(rawPrompt, Some(url)).body), call, parse).calls == []
  {
    var url := Client.DataPrefix + mt + Client.Base64Suffix + ",";
    assert url == Client.DataPrefix + mt + Client.Base64Suffix + "," + "";
    Client.DataUrlRoundTrip(mt, "");
    TrimEmptyIffAllSpace(rawPrompt);
  }

  /** How the page reads a reply body: an error body has none of the advice
      fields; a parsed model output is read by `decode`. */
  function ReadReply<J>(body: Analyse.ReplyBody<J>, decode: J -> Option<Client.Advice>): Option<Client.Advice> {
    match body
    case ErrorJson(_) => Some(Client.NoAdvice)
    case Parsed(v) => decode(v)
  }

  /** The page does not look at the status: a 400 or 500 reply is shown as
      an advice card of placeholders with no language label. */
  lemma FailedReplyShowsPlaceholders<J>(
    body: Option<AnalyseBody>, call: seq<Analyse.Part> -> Option<string>,
    parse: string -> Option<J>, decode: J -> Option<Client.Advice>)
    requires Analyse.Handle(body, call, parse).reply.status != 200
    ensures var data := ReadReply(Analyse.Handle(body, call, parse).reply.body, decode);
            && data == Some(Client.NoAdvice)
            && !Client.LanguageLabel(data).visible
            && Client.View(data.value).plantName == Client.NotAvailable
            && Client.View(data.value).problem == Client.NoVisibleIssues
            && Client.View(data.value).actions == []
  {
  }
}
