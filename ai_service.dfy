/** The simulated AI analysis: an ordered chain of keyword rules over the
    subject, the body and the sender address, first match wins. */
module AiService {
  import opened Outcomes
  import opened Text
  import opened MockData
  import FixtureLetters

  // The five rule tests, in the order the chain tries them. Subject and body
  // are lower-cased before the search; the sender address is not.

  /** Rule 1: "position" in the subject, or both "opportunity" and
      "experience" in the body (`&&` binds tighter than `||`). */
  predicate IsJobOffer(e: Email) {
    Contains(Lower(e.subject), "position")
    || (Contains(Lower(e.body), "opportunity") && Contains(Lower(e.body), "experience"))
  }

  /** Rule 2: "boost" or "revenue" in the subject, or "sales" in the body. */
  predicate IsMarketing(e: Email) {
    Contains(Lower(e.subject), "boost") || Contains(Lower(e.subject), "revenue")
    || Contains(Lower(e.body), "sales")
  }

  /** Rule 3: "subscription" in the subject, or "support" in the sender
      address exactly as written. */
  predicate IsSupport(e: Email) {
    Contains(Lower(e.subject), "subscription") || Contains(e.from.email, "support")
  }

  /** Rule 4: "collaboration" in the subject, or "partnership" in the body. */
  predicate IsColdEmail(e: Email) {
    Contains(Lower(e.subject), "collaboration") || Contains(Lower(e.body), "partnership")
  }

  /** Rule 5: "weekly" in the subject, or "newsletter" in the sender address
      exactly as written. */
  predicate IsNewsletter(e: Email) {
    Contains(Lower(e.subject), "weekly") || Contains(e.from.email, "newsletter")
  }

  /** The five rules, in the order the chain tries them. */
  datatype Rule = JobOffer | Marketing | Support | ColdEmail | Newsletter

  function Rank(r: Rule): (n: nat)
    ensures n < 5
  {
    match r
    case JobOffer => 0
    case Marketing => 1
    case Support => 2
    case ColdEmail => 3
    case Newsletter => 4
  }

  /** The category string a rule assigns. */
  function Kind(r: Rule): (k: string)
    ensures k != "other" && !HasUpper(k)
  {
    match r
    case JobOffer => "job offer"
    case Marketing => "marketing"
    case Support => "support"
    case ColdEmail => "cold email"
    case Newsletter => "newsletter"
  }

  predicate Matches(r: Rule, e: Email) {
    match r
    case JobOffer => IsJobOffer(e)
    case Marketing => IsMarketing(e)
    case Support => IsSupport(e)
    case ColdEmail => IsColdEmail(e)
    case Newsletter => IsNewsletter(e)
  }

  /** The `if / else if` chain: the rule whose branch is taken, or `None`
      when the chain falls through and the category stays "other". */
  function FirstRule(e: Email): (r: Option<Rule>)
    ensures r == None <==> forall q :: !Matches(q, e)
    ensures r.Some? ==> Matches(r.value, e)
    ensures r.Some? ==> forall q | Rank(q) < Rank(r.value) :: !Matches(q, e)
  {
    assert Matches(JobOffer, e) == IsJobOffer(e) && Matches(Marketing, e) == IsMarketing(e);
    assert Matches(Support, e) == IsSupport(e) && Matches(ColdEmail, e) == IsColdEmail(e);
    assert Matches(Newsletter, e) == IsNewsletter(e);
    if IsJobOffer(e) then Some(JobOffer)
    else if IsMarketing(e) then Some(Marketing)
    else if IsSupport(e) then Some(Support)
    else if IsColdEmail(e) then Some(ColdEmail)
    else if IsNewsletter(e) then Some(Newsletter)
    else None
  }

  // The analysis each branch builds. The longer texts are sums of short
  // literals only to keep the verifier's work small; the part of a reply
  // after the greeting is a constant of its own.

  function JobOfferAnalysis(name: string): (a: Analysis)
    ensures a.kind == "job offer" && |a.summary| == 3 && a.analyzed
    ensures a.suggestedReply != ""
  {
    Analysis(
      kind := "job offer",
      summary := [
        "Recruiter from " + name + " is offering a position",
        "Position " + "requires " + "experience " + "with " + "specific " +
        "technologies",
        "They " + "want " + "to " + "schedule " + "a " + "call " + "to " + "discuss"],
      suggestedReply := "Dear " + name + JobOfferReplyTail(),
      analyzed := true)
  }

  function JobOfferReplyTail(): string {
    ",\n" +
    "\n" +
    "Thank " + "you " + "for " + "reaching " + "out " + "about " + "the " + "position. " +
    "I'm " + "interested " + "in " + "learning " + "more " + "about " + "this " +
    "opportunity. " + "I'd " + "be " + "happy " + "to " + "schedule " + "a " + "call " +
    "to " + "discuss " + "the " + "details " + "further.\n" +
    "\n" +
    "Please " + "let " + "me " + "know " + "what " + "times " + "would " + "work " +
    "best " + "for " + "you " + "in " + "the " + "coming " + "week.\n" +
    "\n" +
    "Best " + "regards,\n" +
    "[Your " + "Name]"
  }

  function MarketingAnalysis(name: string): (a: Analysis)
    ensures a.kind == "marketing" && |a.summary| == 3 && a.analyzed
    ensures a.suggestedReply != ""
  {
    Analysis(
      kind := "marketing",
      summary := [
        name + " is offering a SaaS solution to increase revenue",
        "They " + "claim " + "to " + "provide " + "specific " + "measurable " +
        "results",
        "They " + "are " + "requesting " + "a " + "response " + "for " + "a " + "demo"],
      suggestedReply := "Hello " + name + MarketingReplyTail(),
      analyzed := true)
  }

  function MarketingReplyTail(): string {
    ",\n" +
    "\n" +
    "Thank " + "you " + "for " + "your " + "email " + "about " + "your " + "SaaS " +
    "solution. " + "While " + "I " + "appreciate " + "the " + "information, " + "at " +
    "this " + "time " + "we're " + "not " + "looking " + "to " + "implement " + "new " +
    "tools " + "in " + "this " + "area.\n" +
    "\n" +
    "I'll " + "keep " + "your " + "contact " + "information " + "should " + "our " +
    "needs " + "change " + "in " + "the " + "future.\n" +
    "\n" +
    "Best " + "regards,\n" +
    "[Your " + "Name]"
  }

  function SupportAnalysis(): (a: Analysis)
    ensures a.kind == "support" && |a.summary| == 3 && a.analyzed
    ensures a.suggestedReply != ""
  {
    Analysis(
      kind := "support",
      summary := [
        "Notification " + "about " + "subscription " + "renewal",
        "Subscription " + "expires " + "in " + "5 " + "days",
        "Special " + "discount " + "offered " + "for " + "renewal"],
      suggestedReply :=
        "Hello " + "Support " + "Team,\n" +
        "\n" +
        "Thank " + "you " + "for " + "the " + "reminder " + "about " + "my " +
        "subscription " + "renewal. " + "I'd " + "like " + "to " + "take " +
        "advantage " + "of " + "the " + "15% " + "discount " + "offer " + "for " +
        "the " + "annual " + "plan.\n" +
        "\n" +
        "Could " + "you " + "please " + "provide " + "instructions " + "on " + "how " +
        "to " + "apply " + "the " + "RENEW15 " + "code " + "during " + "checkout?\n" +
        "\n" +
        "Thanks,\n" +
        "[Your " + "Name]",
      analyzed := true)
  }

  function ColdEmailAnalysis(name: string): (a: Analysis)
    ensures a.kind == "cold email" && |a.summary| == 3 && a.analyzed
    ensures a.suggestedReply != ""
  {
    Analysis(
      kind := "cold email",
      summary := [
        name + " has been following your work and is impressed",
        "They " + "want " + "to " + "discuss " + "a " + "potential " + "collaboration",
        "They " + "are " + "requesting " + "a " + "30-minute " + "call " + "next " +
        "week"],
      suggestedReply := "Hi " + name + ColdEmailReplyTail(),
      analyzed := true)
  }

  function ColdEmailReplyTail(): string {
    ",\n" +
    "\n" +
    "Thank " + "you " + "for " + "reaching " + "out " + "about " + "a " + "potential " +
    "collaboration. " + "I'd " + "be " + "interested " + "in " + "learning " + "more " +
    "about " + "your " + "project " + "and " + "how " + "we " + "might " + "work " +
    "together.\n" +
    "\n" +
    "I'm " + "available " + "for " + "a " + "call " + "next " + "week. " + "Would " +
    "Tuesday " + "or " + "Thursday " + "afternoon " + "work " + "for " + "you?\n" +
    "\n" +
    "Looking " + "forward " + "to " + "our " + "conversation.\n" +
    "\n" +
    "Best " + "regards,\n" +
    "[Your " + "Name]"
  }

  function NewsletterAnalysis(): (a: Analysis)
    ensures a.kind == "newsletter" && |a.summary| == 3 && a.analyzed
    ensures a.suggestedReply == ""
  {
    Analysis(
      kind := "newsletter",
      summary := [
        "Weekly " + "tech " + "news " + "roundup " + "with " + "focus " + "on " + "AI " +
        "advancements",
        "Information " + "about " + "industry " + "trends " + "in " + "edge " +
        "computing",
        "List " + "of " + "upcoming " + "tech " + "events " + "and " + "conferences"],
      suggestedReply := "",
      analyzed := true)
  }

  /** The analysis of one email: the branch the chain takes supplies the
      category, the bullets and the reply; when it falls through the category
      is "other" with no bullets and no reply. */
  function Classify(e: Email): (a: Analysis)
    ensures a.analyzed
  {
    match FirstRule(e)
    case Some(JobOffer) => JobOfferAnalysis(e.from.name)
    case Some(Marketing) => MarketingAnalysis(e.from.name)
    case Some(Support) => SupportAnalysis()
    case Some(ColdEmail) => ColdEmailAnalysis(e.from.name)
    case Some(Newsletter) => NewsletterAnalysis()
    case None => Analysis(kind := "other", summary := [], suggestedReply := "", analyzed := true)
  }

  /** Every result is marked analyzed, and its category is the one of the
      branch taken, or "other" when the chain falls through. */
  lemma ClassifyKind(e: Email)
    ensures Classify(e).analyzed
    ensures Classify(e).kind == (if FirstRule(e).Some? then Kind(FirstRule(e).value) else "other")
  {
    // Only the builders' contracts are needed here, not their texts.
    hide JobOfferAnalysis, MarketingAnalysis, SupportAnalysis, ColdEmailAnalysis, NewsletterAnalysis;
  }

  /** No rule matching is exactly the "other" case, which carries no bullets
      and no reply. */
  lemma ClassifyOther(e: Email)
    ensures Classify(e).kind == "other" <==> forall r :: !Matches(r, e)
    ensures Classify(e).kind == "other" ==> Classify(e).summary == [] && Classify(e).suggestedReply == ""
  {
    // Only the builders' contracts are needed here, not their texts.
    hide JobOfferAnalysis, MarketingAnalysis, SupportAnalysis, ColdEmailAnalysis, NewsletterAnalysis;
  }

  /** A job offer: three bullets, the first naming the sender as the
      recruiter, and a reply that opens by greeting the sender. */
  lemma ClassifyJobOffer(e: Email)
    requires FirstRule(e) == Some(JobOffer)
    ensures Classify(e).kind == "job offer" && |Classify(e).summary| == 3
    ensures StartsWith(Classify(e).summary[0], "Recruiter from " + e.from.name)
    ensures StartsWith(Classify(e).suggestedReply, "Dear " + e.from.name)
  {
    hide MarketingAnalysis, SupportAnalysis, ColdEmailAnalysis, NewsletterAnalysis;
    var name := e.from.name;
    assert Classify(e).summary[0] == "Recruiter from " + name + " is offering a position";
    StartsWithAppend("Recruiter from " + name, " is offering a position");
    assert Classify(e).suggestedReply == "Dear " + name + JobOfferReplyTail();
    StartsWithAppend("Dear " + name, JobOfferReplyTail());
  }

  /** A marketing pitch: three bullets, the first opening with the sender's
      name, and a reply that opens by greeting the sender. */
  lemma ClassifyMarketing(e: Email)
    requires FirstRule(e) == Some(Marketing)
    ensures Classify(e).kind == "marketing" && |Classify(e).summary| == 3
    ensures StartsWith(Classify(e).summary[0], e.from.name)
    ensures StartsWith(Classify(e).suggestedReply, "Hello " + e.from.name)
  {
    hide JobOfferAnalysis, SupportAnalysis, ColdEmailAnalysis, NewsletterAnalysis;
    var name := e.from.name;
    assert Classify(e).summary[0] == name + " is offering a SaaS solution to increase revenue";
    StartsWithAppend(name, " is offering a SaaS solution to increase revenue");
    assert Classify(e).suggestedReply == "Hello " + name + MarketingReplyTail();
    StartsWithAppend("Hello " + name, MarketingReplyTail());
  }

  /** A support notice: three bullets and a non-empty reply that does not
      depend on the sender. */
  lemma ClassifySupport(e: Email)
    requires FirstRule(e) == Some(Support)
    ensures Classify(e).kind == "support" && |Classify(e).summary| == 3
    ensures Classify(e).suggestedReply != ""
  {
    // Only the builders' contracts are needed here, not their texts.
    hide JobOfferAnalysis, MarketingAnalysis, SupportAnalysis, ColdEmailAnalysis, NewsletterAnalysis;
  }

  /** A cold email: three bullets, the first opening with the sender's name,
      and a reply that opens by greeting the sender. */
  lemma ClassifyColdEmail(e: Email)
    requires FirstRule(e) == Some(ColdEmail)
    ensures Classify(e).kind == "cold email" && |Classify(e).summary| == 3
    ensures StartsWith(Classify(e).summary[0], e.from.name)
    ensures StartsWith(Classify(e).suggestedReply, "Hi " + e.from.name)
  {
    hide JobOfferAnalysis, MarketingAnalysis, SupportAnalysis, NewsletterAnalysis;
    var name := e.from.name;
    assert Classify(e).summary[0] == name + " has been following your work and is impressed";
    StartsWithAppend(name, " has been following your work and is impressed");
    assert Classify(e).suggestedReply == "Hi " + name + ColdEmailReplyTail();
    StartsWithAppend("Hi " + name, ColdEmailReplyTail());
  }

  /** A newsletter: three bullets and no suggested reply. */
  lemma ClassifyNewsletter(e: Email)
    requires FirstRule(e) == Some(Newsletter)
    ensures Classify(e).kind == "newsletter" && |Classify(e).summary| == 3
    ensures Classify(e).suggestedReply == ""
  {
    // Only the builders' contracts are needed here, not their texts.
    hide JobOfferAnalysis, MarketingAnalysis, SupportAnalysis, ColdEmailAnalysis, NewsletterAnalysis;
  }

  /** `analyzeEmail`: the input record with only its analysis replaced by
      the classifier's result. */
  function AnalyzeEmail(e: Email): (r: Email)
    ensures r.id == e.id && r.from == e.from && r.subject == e.subject && r.snippet == e.snippet
    ensures r.body == e.body && r.date == e.date && r.unread == e.unread
    ensures r.analysis == Some(Classify(e)) && r.analysis.value.analyzed
  {
    ClassifyKind(e);
    e.(analysis := Some(Classify(e)))
  }

  /** The classifier reads the subject, the body and the sender only, so an
      analysis already present on the record makes no difference. */
  lemma ClassifyIgnoresAnalysis(e: Email, prior: Option<Analysis>)
    ensures Classify(e.(analysis := prior)) == Classify(e)
  {
    hide JobOfferAnalysis, MarketingAnalysis, SupportAnalysis, ColdEmailAnalysis, NewsletterAnalysis;
    var e' := e.(analysis := prior);
    assert IsJobOffer(e') == IsJobOffer(e) && IsMarketing(e') == IsMarketing(e);
    assert IsSupport(e') == IsSupport(e) && IsColdEmail(e') == IsColdEmail(e);
    assert IsNewsletter(e') == IsNewsletter(e);
  }

  /** Analysing an analysed record again gives the same record. */
  lemma AnalyzeEmailIdempotent(e: Email)
    ensures AnalyzeEmail(AnalyzeEmail(e)) == AnalyzeEmail(e)
  {
    ClassifyIgnoresAnalysis(e, Some(Classify(e)));
  }

  // Small probes that pin down how the tests read. Each is an email with the
  // given subject, body and sender address.

  function Probe(subject: string, body: string, address: string): Email {
    Email(id := "probe", from := Sender(name := "Sam", email := address), subject := subject,
          snippet := "", body := body, date := "", unread := true, analysis := None)
  }

  /** "position" in the subject is enough on its own, while "opportunity" in
      the body needs "experience" beside it: the test is
      `position || (opportunity && experience)`. */
  lemma JobOfferGrouping()
    ensures IsJobOffer(Probe("position", "", ""))
    ensures !IsJobOffer(Probe("", "opportunity", ""))
    ensures IsJobOffer(Probe("", "opportunity experience", ""))
  {
    assert MatchesAt(Lower("position"), "position", 0);
    TooShort(Lower(""), "position");
    MissingLetterAnyCase("opportunity", "experience", 'x');
    var body := Lower("opportunity experience");
    assert body == "opportunity experience";
    assert MatchesAt(body, "opportunity", 0);
    assert MatchesAt(body, "experience", 12);
  }

  /** With an empty subject and body only the two address tests can pass. */
  lemma AddressOnly(e: Email)
    requires e.subject == "" && e.body == ""
    ensures !IsJobOffer(e) && !IsMarketing(e) && !IsColdEmail(e)
    ensures IsSupport(e) == Contains(e.from.email, "support")
    ensures IsNewsletter(e) == Contains(e.from.email, "newsletter")
  {
    assert Lower("") == "";
    forall t: string | t != "" ensures !Contains("", t) {
      TooShort("", t);
    }
  }

  /** The first matching rule wins: an email that passes both the job-offer
      and the support test is a job offer ... */
  lemma JobOfferBeatsSupport(e: Email)
    requires IsJobOffer(e) && IsSupport(e)
    ensures Classify(e).kind == "job offer"
  {
    hide JobOfferAnalysis, MarketingAnalysis, SupportAnalysis, ColdEmailAnalysis, NewsletterAnalysis;
    ClassifyKind(e);
  }

  /** ... such as a "position" subject from a support address. */
  lemma PositionFromSupportAddress()
    ensures IsJobOffer(Probe("position", "", "support@x.com"))
    ensures IsSupport(Probe("position", "", "support@x.com"))
  {
    assert MatchesAt("support@x.com", "support", 0);
    assert MatchesAt(Lower("position"), "position", 0);
  }

  /** An email that fails the first two tests and whose sender address
      contains "support" exactly as written is a support email. */
  lemma SupportAddressMakesSupport(e: Email)
    requires !IsJobOffer(e) && !IsMarketing(e) && Contains(e.from.email, "support")
    ensures Classify(e).kind == "support"
  {
    hide JobOfferAnalysis, MarketingAnalysis, SupportAnalysis, ColdEmailAnalysis, NewsletterAnalysis;
    ClassifyKind(e);
  }

  /** The support address test is case-sensitive: with an empty subject and
      body, "support@x.com" makes a support email ... */
  lemma LowerCaseSupportAddress()
    ensures Classify(Probe("", "", "support@x.com")).kind == "support"
  {
    var e := Probe("", "", "support@x.com");
    AddressOnly(e);
    assert MatchesAt("support@x.com", "support", 0);
    SupportAddressMakesSupport(e);
  }

  /** ... while "Support@x.com", which has no lower-case 's' and no 'n',
      contains neither address keyword ... */
  lemma CapitalisedAddressLacksKeywords()
    ensures !Contains("Support@x.com", "support") && !Contains("Support@x.com", "newsletter")
  {
    MissingLetter("Support@x.com", "support", 's');
    MissingLetter("Support@x.com", "newsletter", 'n');
  }

  /** ... so it matches no rule at all ... */
  lemma CapitalisedSupportMatchesNothing()
    ensures FirstRule(Probe("", "", "Support@x.com")) == None
  {
    AddressOnly(Probe("", "", "Support@x.com"));
    CapitalisedAddressLacksKeywords();
  }

  /** ... and so is classified "other". */
  lemma CapitalisedSupportAddress()
    ensures Classify(Probe("", "", "Support@x.com")).kind == "other"
  {
    hide JobOfferAnalysis, MarketingAnalysis, SupportAnalysis, ColdEmailAnalysis, NewsletterAnalysis;
    CapitalisedSupportMatchesNothing();
    ClassifyKind(Probe("", "", "Support@x.com"));
  }

  // The fixture records against the rules. Each record passes the test of the
  // rule its content is about; for the first that settles its category.

  lemma RecruiterEmailMatchesJobOffer()
    ensures IsJobOffer(RecruiterEmail())
  {
    var subject := RecruiterEmail().subject;
    assert Lower(subject)[17..25] == "position";
    assert MatchesAt(Lower(subject), "position", 17);
  }

  /** Fixture record 1 is classified as a job offer. */
  lemma RecruiterEmailIsJobOffer()
    ensures Classify(RecruiterEmail()).kind == "job offer"
  {
    hide JobOfferAnalysis, MarketingAnalysis, SupportAnalysis, ColdEmailAnalysis, NewsletterAnalysis;
    RecruiterEmailMatchesJobOffer();
    ClassifyKind(RecruiterEmail());
  }

  lemma SalesEmailMatchesMarketing()
    ensures IsMarketing(SalesEmail())
  {
    var subject := SalesEmail().subject;
    assert Lower(subject)[0..5] == "boost";
    assert MatchesAt(Lower(subject), "boost", 0);
  }

  /** Fixture record 2 is classified as marketing: its subject has no 'p',
      so no "position", and its body has no 'x', so no "experience". */
  lemma SalesEmailIsMarketing()
    ensures Classify(SalesEmail()).kind == "marketing"
  {
    hide JobOfferAnalysis, MarketingAnalysis, SupportAnalysis, ColdEmailAnalysis, NewsletterAnalysis;
    var e := SalesEmail();
    FixtureLetters.SalesSubjectHasNoP();
    MissingLetterAnyCase(e.subject, "position", 'p');
    FixtureLetters.SalesBodyHasNoX();
    MissingLetterAnyCase(e.body, "experience", 'x');
    SalesEmailMatchesMarketing();
    ClassifyKind(e);
  }

  lemma RenewalEmailMatchesSupport()
    ensures IsSupport(RenewalEmail())
  {
    assert MatchesAt(RenewalEmail().from.email, "support", 0);
  }

  lemma PartnershipEmailMatchesColdEmail()
    ensures IsColdEmail(PartnershipEmail())
  {
    var subject := PartnershipEmail().subject;
    assert Lower(subject)[10..23] == "collaboration";
    assert MatchesAt(Lower(subject), "collaboration", 10);
  }

  lemma NewsletterEmailMatchesNewsletter()
    ensures IsNewsletter(NewsletterEmail())
  {
    assert MatchesAt(NewsletterEmail().from.email, "newsletter", 0);
  }
}
