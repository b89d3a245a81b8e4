/**
 * Turning the language model's reply into a recommendation. The reply is
 * classified by a keyword at its head (COMPRAR:, VENDER:, MANTENER:, else
 * INFO), and split at the first separator line into a plain summary and an
 * advanced detail. The call to the model itself is an input: either the
 * reply's text or the failure it raised.
 */
module GeminiService {
  import opened Wrappers
  import opened Types
  import opened Seqs
  import opened JsText

  /** The line the model is asked to put between the summary and the advanced details. */
  const SEPARATOR := "---DETALLES_AVANZADOS---"

  const BUY_KEYWORD := "COMPRAR:"
  const SELL_KEYWORD := "VENDER:"
  const HOLD_KEYWORD := "MANTENER:"
  const INFO_KEYWORD := "INFO:"

  /** The recognised keywords, in the order they are tried, with the advice kind each announces. */
  const KEYWORDS: seq<(string, AdviceType)> := [(BUY_KEYWORD, Buy), (SELL_KEYWORD, Sell), (HOLD_KEYWORD, Hold)]

  /** Shown when the reply has content but no usable summary. */
  const UNFORMATTED_SUMMARY :=
    "La IA proporcionó una respuesta, pero no pudo ser formateada correctamente para un resumen sencillo. Revisa la respuesta completa si está disponible."

  /** Shown when no model client could be built because no API key is configured. */
  const SERVICE_UNAVAILABLE :=
    "El Asesor IA no está disponible actualmente. Asegúrate de que la clave API esté configurada."

  const ERROR_HEAD := "Error al obtener asesoramiento para "
  const ERROR_TAIL := ". El servicio de IA podría estar temporalmente no disponible o mal configurado."
  const ERROR_DETAILS := " Detalles: "

  /** What the model call produced: the reply's text, or a failure with the thrown error's message if it was an `Error`. */
  datatype GeminiReply = Text(text: string) | ProviderFailure(errorMessage: Option<string>)

  /** The recommendation handed back to the application. */
  datatype AdviceResult = AdviceResult(
    adviceText: string,
    detailedMessage: Option<string>,
    adviceType: AdviceType,
    rawGeminiResponse: Option<string>)

  /** The text of a failed call: it names the asset and, when the failure carried a message, appends it. */
  function ErrorText(assetName: string, errorMessage: Option<string>): (r: string)
    ensures OccursAt(r, assetName, |ERROR_HEAD|)
    ensures StartsWith(r, ERROR_HEAD)
    ensures errorMessage.Some? ==> OccursAt(r, errorMessage.value, |r| - |errorMessage.value|)
  {
    var base := ERROR_HEAD + assetName + ERROR_TAIL;
    var r := if errorMessage.Some? then base + ERROR_DETAILS + errorMessage.value else base;
    assert r[..|ERROR_HEAD|] == ERROR_HEAD;
    assert r[|ERROR_HEAD|..|ERROR_HEAD| + |assetName|] == assetName;
    r
  }

  /** The keyword test: the upper-cased text starts with the keyword. */
  function HasKeyword(t: string): ((string, AdviceType)) -> bool {
    (k: (string, AdviceType)) => StartsWith(ToUpper(t), k.0)
  }

  /**
   * The advice kind announced by the trimmed reply `t`, and what remains of
   * it: the text after the keyword, trimmed, or all of `t` when no keyword
   * is recognised.
   */
  function Classify(t: string): (r: (AdviceType, string))
    ensures r.0 == Buy <==> StartsWith(ToUpper(t), BUY_KEYWORD)
    ensures r.0 == Sell <==> !StartsWith(ToUpper(t), BUY_KEYWORD) && StartsWith(ToUpper(t), SELL_KEYWORD)
    ensures r.0 == Hold <==>
      !StartsWith(ToUpper(t), BUY_KEYWORD) && !StartsWith(ToUpper(t), SELL_KEYWORD) && StartsWith(ToUpper(t), HOLD_KEYWORD)
    ensures r.0 == Info ==> r.1 == t
    ensures r.0 == Buy ==> r.1 == Trim(t[|BUY_KEYWORD|..])
    ensures r.0 == Sell ==> r.1 == Trim(t[|SELL_KEYWORD|..])
    ensures r.0 == Hold ==> r.1 == Trim(t[|HOLD_KEYWORD|..])
  {
    match FindFirst(KEYWORDS, HasKeyword(t))
    case None =>
      assert !HasKeyword(t)(KEYWORDS[0]) && !HasKeyword(t)(KEYWORDS[1]) && !HasKeyword(t)(KEYWORDS[2]);
      (Info, t)
    case Some(i) =>
      assert HasKeyword(t)(KEYWORDS[i]);
      assert i > 0 ==> !HasKeyword(t)(KEYWORDS[0]);
      assert i > 1 ==> !HasKeyword(t)(KEYWORDS[1]);
      (KEYWORDS[i].1, Trim(t[|KEYWORDS[i].0|..]))
  }

  /** The summary and the advanced detail: split at the first separator, or all summary when there is none. */
  function SplitAtSeparator(body: string): (r: (string, Option<string>))
    ensures r.1.None? <==> forall j :: 0 <= j ==> !OccursAt(body, SEPARATOR, j)
    ensures r.1.None? ==> r.0 == body
    ensures r.1.Some? ==>
      exists j :: FirstOccurrence(body, SEPARATOR, j) && r.0 == Trim(body[..j]) && r.1.value == Trim(body[j + |SEPARATOR|..])
  {
    match IndexOf(body, SEPARATOR)
    case None => (body, None)
    case Some(j) =>
      assert FirstOccurrence(body, SEPARATOR, j);
      (Trim(body[..j]), Some(Trim(body[j + |SEPARATOR|..])))
  }

  /**
   * The summary shown for a reply `raw` of kind `kind` whose parsed summary is
   * `summary`: when that is empty but the reply is not, a fixed notice, or the
   * whole trimmed reply if it carried no keyword and was not tagged INFO.
   */
  function ShownSummary(raw: string, kind: AdviceType, summary: string): string {
    if summary == [] && raw != [] then
      if kind == Info && !StartsWith(ToUpper(raw), INFO_KEYWORD) then Trim(raw) else UNFORMATTED_SUMMARY
    else summary
  }

  /** The recommendation read from the model's reply `raw`. */
  function ParsedAdvice(raw: string): (r: AdviceResult)
    ensures r.rawGeminiResponse == Some(raw)
    ensures r.adviceType == Classify(Trim(raw)).0
  {
    var classified := Classify(Trim(raw));
    var split := SplitAtSeparator(classified.1);
    AdviceResult(ShownSummary(raw, classified.0, split.0), split.1, classified.0, Some(raw))
  }

  /** What a configured client makes of the model's `reply` about the asset named `name`: the parsed reply, or the failure text. */
  function ReplyAdvice(name: string, reply: GeminiReply): AdviceResult {
    match reply
    case Text(raw) => ParsedAdvice(raw)
    case ProviderFailure(message) => AdviceResult(ErrorText(name, message), None, Info, None)
  }

  /** The keyword test on the trimmed reply: the kind it announces and the text left once the keyword is cut off. */
  method ClassifyReply(trimmed: string) returns (adviceType: AdviceType, fullAdviceMessage: string)
    ensures (adviceType, fullAdviceMessage) == Classify(trimmed)
  {
    fullAdviceMessage := trimmed;
    if StartsWith(ToUpper(fullAdviceMessage), BUY_KEYWORD) {
      adviceType := Buy;
      fullAdviceMessage := Trim(fullAdviceMessage[|BUY_KEYWORD|..]);
    } else if StartsWith(ToUpper(fullAdviceMessage), SELL_KEYWORD) {
      adviceType := Sell;
      fullAdviceMessage := Trim(fullAdviceMessage[|SELL_KEYWORD|..]);
    } else if StartsWith(ToUpper(fullAdviceMessage), HOLD_KEYWORD) {
      adviceType := Hold;
      fullAdviceMessage := Trim(fullAdviceMessage[|HOLD_KEYWORD|..]);
    } else {
      adviceType := Info;
    }
  }

  /** The split at the first separator of what follows the keyword. */
  method SplitReply(fullAdviceMessage: string) returns (adviceText: string, detailedMessage: Option<string>)
    ensures (adviceText, detailedMessage) == SplitAtSeparator(fullAdviceMessage)
  {
    detailedMessage := None;
    var separatorIndex := IndexOf(fullAdviceMessage, SEPARATOR);
    if separatorIndex.Some? {
      adviceText := Trim(fullAdviceMessage[..separatorIndex.value]);
      detailedMessage := Some(Trim(fullAdviceMessage[separatorIndex.value + |SEPARATOR|..]));
    } else {
      adviceText := fullAdviceMessage;
    }
  }

  /**
   * The whole advice call. Without a configured client the answer is a fixed
   * INFO notice; a failed call never escapes and becomes an INFO text naming
   * the asset; a reply is classified, split, and given a summary.
   */
  method GetInvestmentAdvice(crypto: CryptoCurrency, clientConfigured: bool, reply: GeminiReply) returns (r: AdviceResult)
    ensures !clientConfigured ==> r == AdviceResult(SERVICE_UNAVAILABLE, None, Info, None)
    ensures clientConfigured && reply.ProviderFailure? ==>
      r == AdviceResult(ErrorText(crypto.name, reply.errorMessage), None, Info, None)
    ensures clientConfigured && reply.Text? ==> r == ParsedAdvice(reply.text)
    ensures clientConfigured ==> r == ReplyAdvice(crypto.name, reply)
  {
    if !clientConfigured {
      return AdviceResult(SERVICE_UNAVAILABLE, None, Info, None);
    }
    if reply.ProviderFailure? {
      return AdviceResult(ErrorText(crypto.name, reply.errorMessage), None, Info, None);
    }
    var rawText := reply.text;
    var adviceType, fullAdviceMessage := ClassifyReply(Trim(rawText));
    var adviceText, detailedMessage := SplitReply(fullAdviceMessage);
    if adviceText == [] && rawText != [] {
      adviceText := UNFORMATTED_SUMMARY;
      if adviceType == Info && !StartsWith(ToUpper(rawText), INFO_KEYWORD) {
        adviceText := Trim(rawText);
      }
    }
    return AdviceResult(adviceText, detailedMessage, adviceType, Some(rawText));
  }

  lemma BlankReplyClassified(raw: string)
    requires Trim(raw) == []
    ensures Classify(Trim(raw)) == (Info, []) && SplitAtSeparator([]) == ([], None)
  {
    var t := Trim(raw);
    assert !StartsWith(ToUpper(t), BUY_KEYWORD) && !StartsWith(ToUpper(t), SELL_KEYWORD) && !StartsWith(ToUpper(t), HOLD_KEYWORD);
    assert forall j :: 0 <= j ==> !OccursAt([], SEPARATOR, j);
  }

  lemma BlankReplyNotInfoTagged(raw: string)
    requires raw != [] && Trim(raw) == []
    ensures !StartsWith(ToUpper(raw), INFO_KEYWORD)
  {
    TrimEmptyIffBlank(raw);
    assert IsWhitespace(raw[0]);
    assert ToUpper(raw)[0] == raw[0];
  }

  /** The summary is empty exactly when the reply is blank. */
  lemma SummaryEmptyOnlyForBlankReply(raw: string)
    ensures ParsedAdvice(raw).adviceText == [] <==> Trim(raw) == []
  {
    if Trim(raw) == [] {
      BlankReplyClassified(raw);
      if raw != [] {
        BlankReplyNotInfoTagged(raw);
      }
    } else {
      var classified := Classify(Trim(raw));
      var split := SplitAtSeparator(classified.1);
      ShownSummaryOfNonBlankReply(raw, classified.0, split.0);
      assert ParsedAdvice(raw).adviceText == ShownSummary(raw, classified.0, split.0);
    }
  }

  /** A reply that is not blank never shows an empty summary. */
  lemma ShownSummaryOfNonBlankReply(raw: string, kind: AdviceType, summary: string)
    requires Trim(raw) != []
    ensures ShownSummary(raw, kind, summary) != []
  {
    assert raw != [];
    assert |UNFORMATTED_SUMMARY| > 0;
  }

  /** A reply without a keyword and without a separator is shown whole, trimmed, as INFO with no detail. */
  lemma UnrecognisedReplyShownWhole(raw: string)
    requires forall k :: 0 <= k < |KEYWORDS| ==> !StartsWith(ToUpper(Trim(raw)), KEYWORDS[k].0)
    requires forall j :: 0 <= j ==> !OccursAt(Trim(raw), SEPARATOR, j)
    ensures ParsedAdvice(raw) == AdviceResult(Trim(raw), None, Info, Some(raw))
  {
    var t := Trim(raw);
    assert !StartsWith(ToUpper(t), KEYWORDS[0].0) && !StartsWith(ToUpper(t), KEYWORDS[1].0) && !StartsWith(ToUpper(t), KEYWORDS[2].0);
    if t == [] {
      SummaryEmptyOnlyForBlankReply(raw);
    }
  }

  /** The part of a well-formed reply after its keyword: summary, separator line, detail. */
  function FormattedBody(summary: string, detail: string): string {
    summary + "\n" + SEPARATOR + "\n" + detail
  }

  /** The reply a model following the requested format writes: keyword, summary, separator line, detail. */
  function Formatted(k: nat, summary: string, detail: string): string
    requires k < |KEYWORDS|
  {
    KEYWORDS[k].0 + " " + FormattedBody(summary, detail)
  }

  /** What a well-formed reply may hold: a trimmed summary in which the separator does not occur, and a trimmed detail. */
  predicate WellFormedParts(summary: string, detail: string) {
    && summary != [] && Trimmed(summary) && (forall j :: 0 <= j < |summary| ==> !OccursAt(summary, SEPARATOR, j))
    && detail != [] && Trimmed(detail)
  }

  lemma FormattedBodyTrimmed(summary: string, detail: string)
    requires WellFormedParts(summary, detail)
    ensures Trimmed(FormattedBody(summary, detail))
  {
    var body := FormattedBody(summary, detail);
    assert body[0] == summary[0];
    assert body[|body| - 1] == detail[|detail| - 1];
  }

  lemma FormattedTrimmed(k: nat, summary: string, detail: string)
    requires k < |KEYWORDS| && WellFormedParts(summary, detail)
    ensures Trim(Formatted(k, summary, detail)) == Formatted(k, summary, detail)
  {
    var body := FormattedBody(summary, detail);
    var raw := Formatted(k, summary, detail);
    FormattedBodyTrimmed(summary, detail);
    assert raw[0] == KEYWORDS[k].0[0];
    assert raw[|raw| - 1] == body[|body| - 1];
    TrimAround([], raw, []);
    assert [] + raw + [] == raw;
  }

  /** The keywords differ in their first letter, so a text announces at most one of them. */
  lemma KeywordRecognised(k: nat, t: string)
    requires k < |KEYWORDS| && StartsWith(ToUpper(t), KEYWORDS[k].0)
    ensures Classify(t) == (KEYWORDS[k].1, Trim(t[|KEYWORDS[k].0|..]))
  {
    var u := ToUpper(t);
    assert u[0] == KEYWORDS[k].0[0];
    if k == 1 {
      assert !StartsWith(u, BUY_KEYWORD);
    } else if k == 2 {
      assert !StartsWith(u, BUY_KEYWORD) && !StartsWith(u, SELL_KEYWORD);
    }
  }

  /** The keywords are written in capitals, so upper-casing leaves them as they are. */
  lemma KeywordsAreCapitals(k: nat)
    requires k < |KEYWORDS|
    ensures forall i :: 0 <= i < |KEYWORDS[k].0| ==> UpperChar(KEYWORDS[k].0[i]) == KEYWORDS[k].0[i]
  {
    if k == 0 {
      assert KEYWORDS[k].0 == BUY_KEYWORD;
    } else if k == 1 {
      assert KEYWORDS[k].0 == SELL_KEYWORD;
    } else {
      assert KEYWORDS[k].0 == HOLD_KEYWORD;
    }
  }

  /** A keyword, a space and a trimmed text classify as the keyword's kind with that text. */
  lemma KeywordThenText(k: nat, text: string)
    requires k < |KEYWORDS| && text != [] && Trimmed(text)
    ensures Classify(KEYWORDS[k].0 + " " + text) == (KEYWORDS[k].1, text)
  {
    var kw, rest := KEYWORDS[k].0, " " + text;
    assert KEYWORDS[k].0 + " " + text == kw + rest;
    KeywordLeads(k, rest);
    KeywordRecognised(k, kw + rest);
    assert (kw + rest)[|kw|..] == rest;
    SpaceThenTrimmed(text);
  }

  /** Upper-casing a text that starts with a keyword keeps the keyword at its head. */
  lemma KeywordLeads(k: nat, rest: string)
    requires k < |KEYWORDS|
    ensures StartsWith(ToUpper(KEYWORDS[k].0 + rest), KEYWORDS[k].0)
  {
    KeywordsAreCapitals(k);
    UpperKeepsCapitalPrefix(KEYWORDS[k].0, rest);
  }

  /** Trimming a space off the front of a trimmed text gives the text back. */
  lemma SpaceThenTrimmed(text: string)
    requires text != [] && Trimmed(text)
    ensures Trim(" " + text) == text
  {
    TrimAround(" ", text, []);
    assert " " + text + [] == " " + text;
  }


  lemma FormattedClassified(k: nat, summary: string, detail: string)
    requires k < |KEYWORDS| && WellFormedParts(summary, detail)
    ensures Classify(Formatted(k, summary, detail)) == (KEYWORDS[k].1, FormattedBody(summary, detail))
  {
    FormattedBodyTrimmed(summary, detail);
    KeywordThenText(k, FormattedBody(summary, detail));
  }

  lemma FormattedSplit(summary: string, detail: string)
    requires WellFormedParts(summary, detail)
    ensures SplitAtSeparator(FormattedBody(summary, detail)) == (summary, Some(detail))
  {
    var body := FormattedBody(summary, detail);
    var at := |summary| + 1;
    SeparatorAfterSummary(summary, detail);
    var found := IndexOf(body, SEPARATOR);
    assert found.Some?;
    assert !(found.value < at);
    assert !(found.value > at);
    assert body[..at] == summary + "\n";
    assert body[at + |SEPARATOR|..] == "\n" + detail;
    SummaryLineTrimmed(summary);
    NewlineThenTrimmed(detail);
  }

  /** In a well-formed body the separator first occurs right after the summary's line. */
  lemma SeparatorAfterSummary(summary: string, detail: string)
    requires WellFormedParts(summary, detail)
    ensures OccursAt(FormattedBody(summary, detail), SEPARATOR, |summary| + 1)
    ensures forall j :: 0 <= j < |summary| + 1 ==> !OccursAt(FormattedBody(summary, detail), SEPARATOR, j)
  {
    var body := FormattedBody(summary, detail);
    var at := |summary| + 1;
    assert body[at..at + |SEPARATOR|] == SEPARATOR;
    forall j | 0 <= j < at ensures !OccursAt(body, SEPARATOR, j) {
      if j + |SEPARATOR| <= |summary| {
        assert body[j..j + |SEPARATOR|] == summary[j..j + |SEPARATOR|];
        assert !OccursAt(summary, SEPARATOR, j);
      } else if j + |SEPARATOR| <= |body| {
        // The window reaches the line break after the summary, which the separator does not contain.
        var d := |summary| - j;
        assert body[j..j + |SEPARATOR|][d] == body[|summary|] == '\n';
        SeparatorHasNoLineBreak(d);
      }
    }
  }

  /** The separator is a single line. */
  lemma SeparatorHasNoLineBreak(d: nat)
    requires d < |SEPARATOR|
    ensures SEPARATOR[d] != '\n'
  {
  }

  /** Trimming the line break off a trimmed summary gives the summary back. */
  lemma SummaryLineTrimmed(summary: string)
    requires summary != [] && Trimmed(summary)
    ensures Trim(summary + "\n") == summary
  {
    TrimAround([], summary, "\n");
    assert [] + summary + "\n" == summary + "\n";
  }

  /** Trimming the line break off the front of a trimmed detail gives the detail back. */
  lemma NewlineThenTrimmed(detail: string)
    requires detail != [] && Trimmed(detail)
    ensures Trim("\n" + detail) == detail
  {
    TrimAround("\n", detail, []);
    assert "\n" + detail + [] == "\n" + detail;
  }


  /**
   * Parsing a well-formed reply gives back exactly its parts: the announced
   * kind, the summary and the detail.
   */
  lemma FormattedReplyRoundTrip(k: nat, summary: string, detail: string)
    requires k < |KEYWORDS| && WellFormedParts(summary, detail)
    ensures ParsedAdvice(Formatted(k, summary, detail)) ==
      AdviceResult(summary, Some(detail), KEYWORDS[k].1, Some(Formatted(k, summary, detail)))
  {
    FormattedTrimmed(k, summary, detail);
    FormattedClassified(k, summary, detail);
    FormattedSplit(summary, detail);
  }

  /** The reply of the format example: a buy recommendation with its summary and its technical detail. */
  lemma FormatExample()
    ensures var raw := "COMPRAR:" + " buy it" + "\n" + "---DETALLES_AVANZADOS---" + "\n" + "technical stuff";
      ParsedAdvice(raw) == AdviceResult("buy it", Some("technical stuff"), Buy, Some(raw))
  {
    var raw := Formatted(0, "buy it", "technical stuff");
    assert raw == "COMPRAR:" + " buy it" + "\n" + "---DETALLES_AVANZADOS---" + "\n" + "technical stuff";
    FormattedReplyRoundTrip(0, "buy it", "technical stuff");
  }
}
