/** The card that shows one email: its category badge, which parts it shows
    and the state of its copy button. */
module EmailCard {
  import opened Outcomes
  import opened Text
  import opened MockData
  import AiService

  /** `find` over the category table: the first entry whose value is `key`.
      A missing key (no analysis) equals no value. */
  function Find(table: seq<EmailType>, key: Option<string>): (r: Option<EmailType>)
    ensures r.Some? ==> r.value in table && key == Some(r.value.value)
    ensures r.Some? ==> exists i | 0 <= i < |table| ::
              table[i] == r.value && forall j | 0 <= j < i :: key != Some(table[j].value)
    ensures r.None? <==> forall i | 0 <= i < |table| :: key != Some(table[i].value)
  {
    if table == [] then None
    else if key == Some(table[0].value) then Some(table[0])
    else Find(table[1..], key)
  }

  /** The badge key: the lower-cased category, or nothing without analysis. */
  function BadgeKey(e: Email): (r: Option<string>)
    ensures r.Some? <==> e.analysis.Some?
    ensures r.Some? ==> r.value == Lower(e.analysis.value.kind) && !HasUpper(r.value)
  {
    match e.analysis
    case Some(a) => LowerHasNoUpper(a.kind); Some(Lower(a.kind))
    case None => None
  }

  /** `emailType`: the table entry for the card's category, or the first
      entry ("all") when there is none. */
  function Badge(e: Email): (t: EmailType)
    ensures t in EmailTypes()
    ensures t == EmailTypes()[0] || (e.analysis.Some? && t.value == Lower(e.analysis.value.kind))
  {
    match Find(EmailTypes(), BadgeKey(e))
    case Some(t) => t
    case None => EmailTypes()[0]
  }

  /** A category the table lists gets its own entry. */
  lemma BadgeForListedCategory(e: Email, i: nat)
    requires e.analysis.Some? && i < |EmailTypes()|
    requires EmailTypes()[i].value == Lower(e.analysis.value.kind)
    ensures Badge(e) == EmailTypes()[i]
  {
    var table := EmailTypes();
    var t := Badge(e);
    assert Find(table, BadgeKey(e)).Some?;
    var j :| 0 <= j < |table| && table[j] == t;
    assert table[j].value == table[i].value;
  }

  /** No analysis, or a category the table does not list, falls back to the
      first entry. */
  lemma BadgeFallback(e: Email)
    requires e.analysis.None? || forall i | 0 <= i < |EmailTypes()| :: EmailTypes()[i].value != Lower(e.analysis.value.kind)
    ensures Badge(e) == EmailTypes()[0] && Badge(e).value == "all"
  {
  }

  /** The classifier's "other" has no table entry, so its card shows the
      fallback badge. */
  lemma OtherGetsFallbackBadge(e: Email)
    requires e.analysis.Some? && e.analysis.value.kind == "other"
    ensures Badge(e) == EmailTypes()[0]
  {
    assert Lower("other") == "other";
    BadgeFallback(e);
  }

  /** What the card shows, as the JSX tree decides it. */
  datatype CardView = CardView(
    text: string,                 // the snippet or the whole body
    analysisPanel: bool,          // the "AI Analysis" block
    analyzeButton: Option<bool>,  // the "Analyze with AI" button and whether it is disabled
    replyBlock: bool,             // the suggested-reply block
    copyButton: bool)             // the "Copy Reply" button in the footer

  function Render(e: Email, isExpanded: bool, isAnalyzing: bool): (v: CardView)
    ensures v.text == (if isExpanded then e.body else e.snippet)
    ensures v.analysisPanel <==> isExpanded && e.analysis.Some?
    ensures v.analyzeButton.Some? <==> isExpanded && e.analysis.None?
    ensures v.analyzeButton.Some? ==> (v.analyzeButton.value <==> isAnalyzing)
    ensures v.replyBlock <==> isExpanded && e.analysis.Some? && e.analysis.value.suggestedReply != ""
    ensures v.copyButton <==> v.replyBlock
    ensures !(v.analysisPanel && v.analyzeButton.Some?)
  {
    var copy := isExpanded && e.analysis.Some? && e.analysis.value.suggestedReply != "";
    if !isExpanded then CardView(e.snippet, false, None, false, copy)
    else match e.analysis
      case Some(a) => CardView(e.body, true, None, a.suggestedReply != "", copy)
      case None => CardView(e.body, false, Some(isAnalyzing), false, copy)
  }

  /** Once analysed, a card never offers the analyze button again. */
  lemma AnalyzedCardHasNoAnalyzeButton(e: Email, isExpanded: bool, isAnalyzing: bool)
    ensures Render(AiService.AnalyzeEmail(e), isExpanded, isAnalyzing).analyzeButton == None
  {
    hide AiService.Classify;
  }

  /** An analysed newsletter has nothing to copy. */
  lemma NewsletterCardHasNoCopyButton(e: Email, isExpanded: bool, isAnalyzing: bool)
    requires AiService.FirstRule(e) == Some(AiService.Newsletter)
    ensures !Render(AiService.AnalyzeEmail(e), isExpanded, isAnalyzing).copyButton
  {
    hide AiService.Classify;
    AiService.ClassifyNewsletter(e);
  }

  /** The card's local state: whether the reply was just copied. */
  class CardState {
    var copied: bool

    constructor ()
      ensures !copied
    {
      copied := false;
    }

    /** `copyToClipboard`: with a non-empty reply it marks the reply as
        copied; with none it does nothing. */
    method CopyToClipboard(e: Email)
      modifies this
      ensures copied == (old(copied) || (e.analysis.Some? && e.analysis.value.suggestedReply != ""))
    {
      if e.analysis.Some? && e.analysis.value.suggestedReply != "" {
        copied := true;
      }
    }
  }
}
