/** The browser side of the analyser: the values the page computes before
    writing them into the document. The submit guard and request body, the
    split of a file's data URL into base64 text and media type, the language
    label, the advice card with its placeholders, and the lines of the
    popular-plants list. Reading the file, `fetch`, `alert` and every DOM
    write are left to the caller. */
module Client {
  import opened Values
  import opened JsText

  const DefaultFileType := "image/jpeg"
  const EmptyInputAlert := "Please enter a prompt or upload an image."
  const RequestFailedAlert := "Something went wrong. Please try again."
  const NotAvailable := "Not available"
  const NoVisibleIssues := "No visible issues"
  const NoSearches := "No searches yet."
  const DataPrefix := "data:"
  const Base64Suffix := ";base64"

  predicate NoLineTerminator(s: string) {
    forall i :: 0 <= i < |s| ==> !IsLineTerminator(s[i])
  }

  // ---------------------------------------------------------------------
  // fileToBase64AndType

  /** What `fileToBase64AndType` resolves to. */
  datatype FileData = FileData(base64: string, mimeType: string)

  /** The capture of `/^data:(.*?);base64$/` on the part of the data URL
      before its first comma, or `None` when the pattern does not match.
      The `.` does not match line terminators, so a media type containing
      one makes the pattern fail. */
  function MatchBase64Prefix(prefix: string): (t: Option<string>)
    ensures t.Some? ==> prefix == DataPrefix + t.value + Base64Suffix && NoLineTerminator(t.value)
    ensures |prefix| < |DataPrefix| + |Base64Suffix| ==> t.None?
  {
    if |prefix| >= 12 && prefix[..5] == DataPrefix && prefix[|prefix| - 7..] == Base64Suffix
       && NoLineTerminator(prefix[5..|prefix| - 7])
    then
      assert prefix == prefix[..5] + prefix[5..|prefix| - 7] + prefix[|prefix| - 7..];
      Some(prefix[5..|prefix| - 7])
    else None
  }

  /** Every media type free of line terminators is captured back exactly,
      the empty one included. */
  lemma MatchBase64PrefixComplete(mt: string)
    requires NoLineTerminator(mt)
    ensures MatchBase64Prefix(DataPrefix + mt + Base64Suffix) == Some(mt)
  {
    var p := DataPrefix + mt + Base64Suffix;
    assert p[..5] == DataPrefix;
    assert p[|p| - 7..] == Base64Suffix;
    assert p[5..|p| - 7] == mt;
  }

  /** Splits a data URL at its commas: the base64 text is the second piece
      (empty when there is no comma), and the media type is the capture of
      the first piece, or `image/jpeg` when the first piece is not exactly
      `data:<type>;base64`. */
  function FileToBase64AndType(dataUrl: string): (f: FileData)
    ensures ',' !in dataUrl ==> f.base64 == ""
    ensures ',' in dataUrl ==>
              var rest := dataUrl[FirstIndexOf(dataUrl, ',') + 1..];
              f.base64 == rest[..FirstIndexOf(rest, ',')]
    ensures ',' !in f.base64
    ensures var m := MatchBase64Prefix(dataUrl[..FirstIndexOf(dataUrl, ',')]);
            (m.Some? ==> f.mimeType == m.value) && (m.None? ==> f.mimeType == DefaultFileType)
  {
    var parts := Split(dataUrl, ',');
    var prefix := parts[0];
    var base64 := if |parts| > 1 then parts[1] else "";
    var m := MatchBase64Prefix(prefix);
    FileData(base64, if m.Some? then m.value else DefaultFileType)
  }

  /** A well-formed base64 data URL splits back into the payload and media
      type it was made from. */
  lemma DataUrlRoundTrip(mt: string, payload: string)
    requires ',' !in mt && NoLineTerminator(mt)
    requires ',' !in payload
    ensures FileToBase64AndType(DataPrefix + mt + Base64Suffix + "," + payload) == FileData(payload, mt)
  {
    var prefix := DataPrefix + mt + Base64Suffix;
    assert ',' !in prefix by {
      assert forall i :: 0 <= i < |prefix| ==> prefix[i] == ',' ==> 5 <= i < 5 + |mt| && mt[i - 5] == ',';
    }
    SplitJoin([prefix, payload], ',');
    assert Join([prefix, payload], ',') == prefix + "," + payload by {
      assert Join([prefix, payload][1..], ',') == payload;
    }
    MatchBase64PrefixComplete(mt);
  }

  // ---------------------------------------------------------------------
  // Submit handler

  /** The submit handler either alerts and sends nothing, or posts this
      body to `/analyse`. */
  datatype Submission = Refused(alert: string) | Send(body: AnalyseBody)

  /** The prompt is trimmed. Submission is refused when it is then empty
      and no file is chosen; otherwise the body carries the trimmed prompt
      and, when a file is chosen, the base64 text and media type split out
      of its data URL, or `null` for both when there is no file.
      `fileDataUrl` is what reading the chosen file as a data URL gives. */
  function Submit(rawPrompt: string, fileDataUrl: Option<string>): (s: Submission)
    ensures s.Refused? <==> AllSpace(rawPrompt) && fileDataUrl.None?
    ensures s.Refused? ==> s.alert == EmptyInputAlert
    ensures s.Send? ==> s.body.prompt == Some(Trim(rawPrompt))
    ensures s.Send? && fileDataUrl.None? ==> s.body.image.None? && s.body.mimeType.None?
    ensures s.Send? && fileDataUrl.Some? ==>
              var f := FileToBase64AndType(fileDataUrl.value);
              s.body.image == Some(f.base64) && s.body.mimeType == Some(f.mimeType)
  {
    var prompt := Trim(rawPrompt);
    TrimEmptyIffAllSpace(rawPrompt);
    if prompt == "" && fileDataUrl.None? then Refused(EmptyInputAlert)
    else match fileDataUrl
      case None => Send(AnalyseBody(Some(prompt), None, None))
      case Some(url) =>
        var f := FileToBase64AndType(url);
        Send(AnalyseBody(Some(prompt), Some(f.base64), Some(f.mimeType)))
  }

  // ---------------------------------------------------------------------
  // The advice record as the page reads it

  /** `possible_causes`. */
  datatype Causes = Causes(environmental: Option<seq<string>>, health: Option<seq<string>>)

  /** `careGuide`: language code and name, and the five care texts. */
  datatype CareGuide = CareGuide(
    language: Option<string>, languageName: Option<string>,
    watering: Option<string>, light: Option<string>, soil: Option<string>,
    pruning: Option<string>, commonIssues: Option<string>)

  /** The reply body read as advice; any field may be missing. */
  datatype Advice = Advice(
    commonName: Option<string>, scientificName: Option<string>, problem: Option<string>,
    causes: Option<Causes>, actions: Option<seq<string>>, tips: Option<seq<string>>,
    care: Option<CareGuide>)

  /** A reply that carries none of the advice fields, such as `{ error }`. */
  const NoAdvice := Advice(None, None, None, None, None, None, None)

  /** The texts and lists the advice card shows. */
  datatype AdviceView = AdviceView(
    plantName: string, scientificName: string, problem: string,
    environmental: seq<string>, health: seq<string>, actions: seq<string>, tips: seq<string>,
    watering: string, light: string, soil: string, pruning: string, commonIssues: string)

  /** A shown text: the value when it is a non-empty string, the
      placeholder otherwise. */
  predicate ShowsOr(o: Option<string>, shown: string, placeholder: string) {
    (Truthy(o) ==> shown == o.value) && (!Truthy(o) ==> shown == placeholder)
  }

  /** The keys of `careGuide` the page reads. */
  datatype CareKey = Language | LanguageName | Watering | Light | Soil | Pruning | CommonIssues

  function CareGuideField(g: CareGuide, key: CareKey): Option<string> {
    match key
    case Language => g.language
    case LanguageName => g.languageName
    case Watering => g.watering
    case Light => g.light
    case Soil => g.soil
    case Pruning => g.pruning
    case CommonIssues => g.commonIssues
  }

  /** `careGuide.<key>`, missing when the care guide itself is. */
  function CareField(a: Advice, key: CareKey): Option<string> {
    if a.care.Some? then CareGuideField(a.care.value, key) else None
  }

  /** What `displayAdvice` puts on the page for `a`. Names missing or empty
      show "Not available", a missing or empty problem shows "No visible
      issues", missing lists (or a missing causes object) show as empty, and
      missing care texts show "Not available"; present values are shown
      unchanged. */
  predicate ShowsAdvice(a: Advice, v: AdviceView) {
    && ShowsOr(a.commonName, v.plantName, NotAvailable)
    && ShowsOr(a.scientificName, v.scientificName, NotAvailable)
    && ShowsOr(a.problem, v.problem, NoVisibleIssues)
    && (a.causes.None? ==> v.environmental == [] && v.health == [])
    && (a.causes.Some? ==>
          v.environmental == OrEmpty(a.causes.value.environmental) && v.health == OrEmpty(a.causes.value.health))
    && (a.actions.None? ==> v.actions == [])
    && (a.actions.Some? ==> v.actions == a.actions.value)
    && (a.tips.None? ==> v.tips == [])
    && (a.tips.Some? ==> v.tips == a.tips.value)
    && ShowsOr(CareField(a, Watering), v.watering, NotAvailable)
    && ShowsOr(CareField(a, Light), v.light, NotAvailable)
    && ShowsOr(CareField(a, Soil), v.soil, NotAvailable)
    && ShowsOr(CareField(a, Pruning), v.pruning, NotAvailable)
    && ShowsOr(CareField(a, CommonIssues), v.commonIssues, NotAvailable)
  }

  /** The card for an advice record, as a value. */
  function View(a: Advice): (v: AdviceView)
    ensures ShowsAdvice(a, v)
  {
    var causes := if a.causes.Some? then a.causes.value else Causes(None, None);
    AdviceView(
      OrElse(a.commonName, NotAvailable), OrElse(a.scientificName, NotAvailable),
      OrElse(a.problem, NoVisibleIssues),
      OrEmpty(causes.environmental), OrEmpty(causes.health), OrEmpty(a.actions), OrEmpty(a.tips),
      OrElse(CareField(a, Watering), NotAvailable), OrElse(CareField(a, Light), NotAvailable), OrElse(CareField(a, Soil), NotAvailable),
      OrElse(CareField(a, Pruning), NotAvailable), OrElse(CareField(a, CommonIssues), NotAvailable))
  }

  /** The description of the card leaves no freedom: one card, and only
      one, shows a given advice record. */
  lemma ShowsAdviceUnique(a: Advice, v1: AdviceView, v2: AdviceView)
    requires ShowsAdvice(a, v1) && ShowsAdvice(a, v2)
    ensures v1 == v2
  {
  }

  /** Showing what is already shown changes nothing: every placeholder is a
      non-empty string, so it is shown as itself. */
  lemma ViewIdempotent(a: Advice)
    ensures View(ViewAsAdvice(View(a))) == View(a)
  {
  }

  /** An advice record with every field present, as it would be read back
      from a shown card. */
  function ViewAsAdvice(v: AdviceView): Advice {
    Advice(Some(v.plantName), Some(v.scientificName), Some(v.problem),
           Some(Causes(Some(v.environmental), Some(v.health))), Some(v.actions), Some(v.tips),
           Some(CareGuide(None, None, Some(v.watering), Some(v.light), Some(v.soil),
                          Some(v.pruning), Some(v.commonIssues))))
  }

  /** A reply with none of the advice fields shows every placeholder and
      empty lists. */
  lemma NoAdviceShowsPlaceholders()
    ensures View(NoAdvice)
         == AdviceView(NotAvailable, NotAvailable, NoVisibleIssues, [], [], [], [],
                       NotAvailable, NotAvailable, NotAvailable, NotAvailable, NotAvailable)
  {
  }

  /** One `<li>` per item, in order, with the item as its text. */
  method RenderList(items: seq<string>) returns (shown: seq<string>)
    ensures |shown| == |items|
    ensures forall i :: 0 <= i < |items| ==> shown[i] == items[i]
  {
    shown := [];
    var i := 0;
    while i < |items|
      invariant 0 <= i <= |items|
      invariant shown == items[..i]
    {
      shown := shown + [items[i]];
      i := i + 1;
    }
  }

  /** `displayAdvice`: the four lists are rendered item by item, and the
      resulting card shows the advice as described by `ShowsAdvice`. */
  method DisplayAdvice(a: Advice) returns (v: AdviceView)
    ensures ShowsAdvice(a, v)
  {
    var causes := if a.causes.Some? then a.causes.value else Causes(None, None);
    var environmental := RenderList(OrEmpty(causes.environmental));
    var health := RenderList(OrEmpty(causes.health));
    var actions := RenderList(OrEmpty(a.actions));
    var tips := RenderList(OrEmpty(a.tips));
    v := AdviceView(
      OrElse(a.commonName, NotAvailable), OrElse(a.scientificName, NotAvailable),
      OrElse(a.problem, NoVisibleIssues),
      environmental, health, actions, tips,
      OrElse(CareField(a, Watering), NotAvailable), OrElse(CareField(a, Light), NotAvailable),
      OrElse(CareField(a, Soil), NotAvailable), OrElse(CareField(a, Pruning), NotAvailable),
      OrElse(CareField(a, CommonIssues), NotAvailable));
  }

  // ---------------------------------------------------------------------
  // Language label

  /** The language line above the advice: shown with `text`, or hidden
      with empty text. */
  datatype LanguageInfo = LanguageInfo(visible: bool, text: string)

  /** `data && data.careGuide && data.careGuide.<key>`; a `null` reply
      (`None`) has no care guide. */
  function ReplyCareField(data: Option<Advice>, key: CareKey): Option<string> {
    if data.Some? then CareField(data.value, key) else None
  }

  /** With a language code the label is the name (or, lacking one, the
      code) followed by the code in parentheses; with only a name it is the
      name; with neither it is hidden and empty. */
  function LanguageLabel(data: Option<Advice>): (l: LanguageInfo)
    ensures var code, name := ReplyCareField(data, Language), ReplyCareField(data, LanguageName);
            && (l.visible <==> Truthy(code) || Truthy(name))
            && (l.visible <==> l.text != "")
            && (Truthy(code) && Truthy(name) ==> l.text == name.value + " (" + code.value + ")")
            && (Truthy(code) && !Truthy(name) ==> l.text == code.value + " (" + code.value + ")")
            && (!Truthy(code) && Truthy(name) ==> l.text == name.value)
  {
    var code, name := ReplyCareField(data, Language), ReplyCareField(data, LanguageName);
    if Truthy(code) || Truthy(name) then
      LanguageInfo(true, (if Truthy(name) then name.value else code.value)
                         + (if Truthy(code) then " (" + code.value + ")" else ""))
    else LanguageInfo(false, "")
  }

  /** What the page ends up showing after a reply: the language label, and
      either the advice card or, for a `null` reply on which `displayAdvice`
      fails, the request-failed alert. */
  datatype Screen = Screen(language: LanguageInfo, advice: Option<AdviceView>, alert: Option<string>)

  method ShowReply(data: Option<Advice>) returns (screen: Screen)
    ensures screen.language == LanguageLabel(data)
    ensures data.None? ==> screen.advice.None? && screen.alert == Some(RequestFailedAlert)
    ensures data.Some? ==> screen.advice.Some? && ShowsAdvice(data.value, screen.advice.value) && screen.alert.None?
  {
    var info := LanguageLabel(data);
    match data
    case None =>
      screen := Screen(info, None, Some(RequestFailedAlert));
    case Some(a) =>
      var v := DisplayAdvice(a);
      screen := Screen(info, Some(v), None);
  }

  // ---------------------------------------------------------------------
  // Popular plants

  /** A row of the popular-plants reply. */
  datatype Row = Row(plantName: string, count: int)

  const Dash := " \U{2014} "

  /** The word after the count: singular exactly for a count of 1. */
  function CountWord(count: int): string {
    if count == 1 then " search" else " searches"
  }

  /** `${plant_name} — ${count} search` for a count of 1, `searches`
      otherwise. */
  function RowLine(r: Row): string {
    r.plantName + Dash + IntToDecimal(r.count) + CountWord(r.count)
  }

  /** The parts of a row line: it starts with the plant name and the dash,
      ends with the word for the count, and holds the decimal count in
      between. */
  lemma RowLineParts(r: Row)
    ensures var line, head, word := RowLine(r), r.plantName + Dash, CountWord(r.count);
            && |head| + |word| < |line|
            && line[..|head|] == head
            && EndsWith(line, word)
            && line[|head|..|line| - |word|] == IntToDecimal(r.count)
  {
    var head := r.plantName + Dash;
    assert RowLine(r)[|head|..] == IntToDecimal(r.count) + CountWord(r.count);
  }

  /** Reads the count back from a row line, given the plant name. */
  function DecodeRowLine(name: string, line: string): Option<int> {
    var head := name + Dash;
    if |head| <= |line| && line[..|head|] == head then DecodeCount(line[|head|..]) else None
  }

  /** Reads `<count> search` or `<count> searches`. */
  function DecodeCount(rest: string): Option<int> {
    if EndsWith(rest, " searches") then ParseInt(rest[..|rest| - 9])
    else if EndsWith(rest, " search") then ParseInt(rest[..|rest| - 7])
    else None
  }

  lemma DecodeCountOf(n: int)
    ensures DecodeCount(IntToDecimal(n) + CountWord(n)) == Some(n)
  {
    var num := IntToDecimal(n);
    var rest := num + CountWord(n);
    IntToDecimalRoundTrip(n);
    if n == 1 {
      assert num == "1";
      assert rest == "1 search";
    } else {
      assert rest[|rest| - 9..] == " searches";
      assert rest[..|rest| - 9] == num;
    }
  }

  /** A row line carries its count exactly: it reads back as the row's
      count. */
  lemma RowLineDecodes(r: Row)
    ensures DecodeRowLine(r.plantName, RowLine(r)) == Some(r.count)
  {
    var head := r.plantName + Dash;
    var rest := IntToDecimal(r.count) + CountWord(r.count);
    var line := RowLine(r);
    assert line == head + rest;
    assert line[..|head|] == head && line[|head|..] == rest;
    DecodeCountOf(r.count);
  }

  /** The singular is used exactly for a count of 1. */
  lemma RowLineSingularIff(r: Row)
    ensures EndsWith(RowLine(r), " search") <==> r.count == 1
  {
    var line := RowLine(r);
    if r.count != 1 {
      assert line[|line| - 1] == 's';
    }
  }

  /** `fetchTopPlants`: a missing or empty reply gives the single line
      "No searches yet."; otherwise one line per row, in order. */
  method TopPlantLines(rows: Option<seq<Row>>) returns (lines: seq<string>)
    ensures rows.None? || rows.value == [] ==> lines == [NoSearches]
    ensures rows.Some? && rows.value != [] ==>
              |lines| == |rows.value| && forall i :: 0 <= i < |lines| ==> lines[i] == RowLine(rows.value[i])
  {
    if rows.None? || |rows.value| == 0 {
      return [NoSearches];
    }
    var items := rows.value;
    lines := [];
    var i := 0;
    while i < |items|
      invariant 0 <= i <= |items|
      invariant |lines| == i
      invariant forall k :: 0 <= k < i ==> lines[k] == RowLine(items[k])
    {
      lines := lines + [RowLine(items[i])];
      i := i + 1;
    }
  }
}
