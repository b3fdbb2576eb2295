/** The inbox record type, the category table and the five-message fixture
    that the simulated mail source serves. */
module MockData {
  import opened Outcomes
  import opened Text

  datatype Sender = Sender(name: string, email: string)

  /** The optional analysis attached to a record; `kind` holds the category
      string that the source calls `type`. */
  datatype Analysis = Analysis(
    kind: string,
    summary: seq<string>,
    suggestedReply: string,
    analyzed: bool)

  datatype Email = Email(
    id: string,
    from: Sender,
    subject: string,
    snippet: string,
    body: string,
    date: string,
    unread: bool,
    analysis: Option<Analysis>)

  /** One entry of the category table: the filter value, its caption (label) and the
      badge colour classes. */
  datatype EmailType = EmailType(value: string, caption: string, color: string)

  /** The category table. Its first entry, "all", doubles as the badge
      fallback; there is no entry for the classifier's "other". */
  function EmailTypes(): (r: seq<EmailType>)
    ensures |r| == 7 && r[0].value == "all"
    ensures forall i | 0 <= i < |r| :: r[i].value != "other" && !HasUpper(r[i].value)
    ensures forall i, j | 0 <= i < j < |r| :: r[i].value != r[j].value
  {
    [ EmailType("all", "All", "bg-gray-100 text-gray-800"),
      EmailType("job offer", "Job Offer", "bg-green-100 text-green-800"),
      EmailType("cold email", "Cold Email", "bg-blue-100 text-blue-800"),
      EmailType("support", "Support", "bg-purple-100 text-purple-800"),
      EmailType("marketing", "Marketing", "bg-orange-100 text-orange-800"),
      EmailType("newsletter", "Newsletter", "bg-yellow-100 text-yellow-800"),
      EmailType("spam", "Spam", "bg-red-100 text-red-800") ]
  }

  /** The five records served by the mail source, newest first: every one is
      unread and none carries an analysis yet. The record functions below give
      each one's id. */
  function MockEmails(): (r: seq<Email>)
    ensures |r| == 5
    ensures forall i | 0 <= i < |r| :: r[i].unread && r[i].analysis == None
  {
    [RecruiterEmail(), SalesEmail(), RenewalEmail(), PartnershipEmail(), NewsletterEmail()]
  }

  /** The fixture's ids are "1" to "5" in order, so no two records share one. */
  lemma FixtureIds()
    ensures forall i | 0 <= i < 5 :: MockEmails()[i].id == ["1", "2", "3", "4", "5"][i]
    ensures forall i, j | 0 <= i < j < 5 :: MockEmails()[i].id != MockEmails()[j].id
  {
    // The ids are in the records' contracts; their texts are not needed.
    hide RecruiterEmail, SalesEmail, RenewalEmail, PartnershipEmail, NewsletterEmail;
  }

  // The longer texts below are written as sums of word-sized literals: the
  // verifier's cost grows quickly with the length of a single literal.

  /** Fixture record 1: the recruiter's offer. */
  function RecruiterEmail(): (r: Email)
    ensures r.id == "1" && r.analysis == None
  {
    Email(
      id := "1",
      from := Sender(name := "John Recruitment", email := "john@techrecruiters.com"),
      subject := "Senior " + "Developer " + "Position " + "at " + "Innovative " + "Tech",
      snippet := "We " + "have " + "an " + "exciting " + "opportunity " + "that " +
        "matches " + "your " + "profile...",
      body :=
        "\n" +
        "Dear " + "[Name],\n" +
        "\n" +
        "I " + "hope " + "this " + "email " + "finds " + "you " + "well. " + "I " +
        "am " + "reaching " + "out " + "because " + "I " + "came " + "across " + "your " +
        "profile " + "and " + "was " + "impressed " + "by " + "your " + "skills " +
        "and " + "experience.\n" +
        "\n" +
        "We " + "have " + "an " + "opening " + "for " + "a " + "Senior " + "Developer " +
        "position " + "at " + "Innovative " + "Tech, " + "a " + "rapidly " + "growing " +
        "startup " + "in " + "the " + "fintech " + "space. " + "The " + "role " +
        "offers " + "competitive " + "compensation " + "and " + "the " + "chance " +
        "to " + "work " + "with " + "cutting-edge " + "technologies.\n" +
        "\n" +
        "Key " + "Requirements:\n" +
        "- " + "5+ " + "years " + "of " + "experience " + "in " + "frontend " +
        "development\n" +
        "- " + "Proficiency " + "with " + "React, " + "TypeScript, " + "and " +
        "modern " + "JavaScript\n" +
        "- " + "Experience " + "with " + "cloud " + "services " + "and " + "serverless " +
        "architecture\n" +
        "\n" +
        "Would " + "you " + "be " + "interested " + "in " + "learning " + "more " +
        "about " + "this " + "opportunity? " + "If " + "so, " + "I'd " + "be " +
        "happy " + "to " + "schedule " + "a " + "call " + "to " + "discuss " + "the " +
        "details.\n" +
        "\n" +
        "Best " + "regards,\n" +
        "John " + "Smith\n" +
        "Tech " + "Recruiters " + "Inc.\n" +
        "    ",
      date := "2023-05-03T09:30:00",
      unread := true,
      analysis := None)
  }

  /** Fixture record 2: the sales pitch. */
  function SalesEmail(): (r: Email)
    ensures r.id == "2" && r.analysis == None
  {
    Email(
      id := "2",
      from := Sender(name := "Marketing Automation", email := "marketing@salescompany.com"),
      subject := "Boost " + "Your " + "Revenue " + "with " + "Our " + "SaaS " +
        "Solution",
      snippet := "Our " + "AI-powered " + "platform " + "has " + "been " + "helping " +
        "companies " + "like " + "yours...",
      body :=
        "\n" +
        "Hello " + "there,\n" +
        "\n" +
        "Are " + "you " + "looking " + "to " + "increase " + "your " + "company's " +
        "revenue? " + "Our " + "AI-powered " + "SaaS " + "solution " + "has " + "been " +
        "helping " + "businesses " + "like " + "yours " + "achieve " + "remarkable " +
        "results.\n" +
        "\n" +
        "Key " + "benefits:\n" +
        "- " + "30% " + "average " + "increase " + "in " + "conversion " + "rates\n" +
        "- " + "Automated " + "customer " + "journey " + "mapping\n" +
        "- " + "Real-time " + "analytics " + "and " + "insights\n" +
        "\n" +
        "Our " + "clients, " + "including " + "Fortune " + "500 " + "companies, " +
        "have " + "seen " + "significant " + "ROI " + "within " + "just " + "3 " +
        "months " + "of " + "implementation.\n" +
        "\n" +
        "Would " + "you " + "be " + "interested " + "in " + "a " + "free " + "demo? " +
        "Just " + "reply " + "to " + "this " + "email, " + "and " + "we'll " + "set " +
        "it " + "up " + "right " + "away.\n" +
        "\n" +
        "Best,\n" +
        "Mark " + "Johnson\n" +
        "Sales " + "Representative\n" +
        "SalesCompany " + "Inc.\n" +
        "    ",
      date := "2023-05-02T14:15:00",
      unread := true,
      analysis := None)
  }

  /** Fixture record 3: the subscription renewal notice. */
  function RenewalEmail(): (r: Email)
    ensures r.id == "3" && r.analysis == None
  {
    Email(
      id := "3",
      from := Sender(name := "Support Team", email := "support@yourservice.com"),
      subject := "Your " + "Subscription " + "Renewal",
      snippet := "Your " + "subscription " + "is " + "about " + "to " + "expire " +
        "in " + "5 " + "days...",
      body :=
        "\n" +
        "Hi " + "there,\n" +
        "\n" +
        "This " + "is " + "a " + "friendly " + "reminder " + "that " + "your " +
        "Premium " + "subscription " + "will " + "expire " + "in " + "5 " + "days.\n" +
        "\n" +
        "To " + "ensure " + "uninterrupted " + "access " + "to " + "all " + "Premium " +
        "features, " + "please " + "renew " + "your " + "subscription " + "before " +
        "the " + "expiration " + "date. " + "You " + "can " + "do " + "this " + "by " +
        "logging " + "into " + "your " + "account " + "and " + "navigating " + "to " +
        "the " + "Billing " + "section.\n" +
        "\n" +
        "As " + "a " + "valued " + "customer, " + "we're " + "offering " + "you " + "a " +
        "15% " + "discount " + "on " + "your " + "renewal " + "if " + "you " + "choose " +
        "the " + "annual " + "plan. " + "Just " + "use " + "code " + "RENEW15 " + "at " +
        "checkout.\n" +
        "\n" +
        "If " + "you " + "have " + "any " + "questions " + "or " + "need " +
        "assistance, " + "please " + "don't " + "hesitate " + "to " + "contact " +
        "our " + "support " + "team.\n" +
        "\n" +
        "Thank " + "you " + "for " + "being " + "a " + "loyal " + "customer!\n" +
        "\n" +
        "Best " + "regards,\n" +
        "Support " + "Team\n" +
        "YourService\n" +
        "    ",
      date := "2023-05-01T11:45:00",
      unread := true,
      analysis := None)
  }

  /** Fixture record 4: the partnership enquiry. */
  function PartnershipEmail(): (r: Email)
    ensures r.id == "4" && r.analysis == None
  {
    Email(
      id := "4",
      from := Sender(name := "Alex Partner", email := "alex@potentialclient.com"),
      subject := "Potential " + "collaboration " + "opportunity",
      snippet := "I've " + "been " + "following " + "your " + "work " + "and " +
        "would " + "love " + "to " + "discuss...",
      body :=
        "\n" +
        "Hello,\n" +
        "\n" +
        "I've " + "been " + "following " + "your " + "company's " + "work " + "for " +
        "some " + "time " + "and " + "I'm " + "impressed " + "by " + "the " +
        "projects " + "you've " + "completed, " + "especially " + "your " + "recent " +
        "work " + "with " + "AI " + "integration " + "solutions.\n" +
        "\n" +
        "Our " + "company " + "is " + "looking " + "to " + "implement " + "similar " +
        "technologies, " + "and " + "I " + "believe " + "there " + "might " + "be " +
        "a " + "great " + "opportunity " + "for " + "collaboration. " + "We " + "have " +
        "a " + "specific " + "project " + "in " + "mind " + "that " + "would " +
        "benefit " + "from " + "your " + "expertise.\n" +
        "\n" +
        "Would " + "you " + "be " + "available " + "for " + "a " + "30-minute " +
        "call " + "next " + "week " + "to " + "discuss " + "this " + "potential " +
        "partnership? " + "I'm " + "flexible " + "with " + "timing " + "and " + "can " +
        "work " + "around " + "your " + "schedule.\n" +
        "\n" +
        "Looking " + "forward " + "to " + "your " + "response,\n" +
        "\n" +
        "Alex " + "Partner\n" +
        "Business " + "Development\n" +
        "PotentialClient " + "Inc.\n" +
        "    ",
      date := "2023-04-30T16:20:00",
      unread := true,
      analysis := None)
  }

  /** Fixture record 5: the weekly newsletter. */
  function NewsletterEmail(): (r: Email)
    ensures r.id == "5" && r.analysis == None
  {
    Email(
      id := "5",
      from := Sender(name := "Newsletter", email := "newsletter@techblog.com"),
      subject := "Weekly " + "Tech " + "News: " + "AI " + "Breakthroughs " + "& " +
        "More",
      snippet := "This " + "week's " + "top " + "stories " + "include " + "major " +
        "advancements " + "in " + "AI " + "technology...",
      body :=
        "\n" +
        "# " + "Weekly " + "Tech " + "Roundup\n" +
        "\n" +
        "## " + "Top " + "Stories " + "This " + "Week\n" +
        "\n" +
        "1. " + "**OpenAI " + "Unveils " + "New " + "Language " + "Model**\n" +
        "   " + "The " + "latest " + "model " + "shows " + "unprecedented " +
        "reasoning " + "capabilities " + "and " + "reduced " + "hallucination " +
        "rates.\n" +
        "\n" +
        "2. " + "**Tech " + "Giant " + "Announces " + "Quantum " + "Computing " +
        "Milestone**\n" +
        "   " + "Researchers " + "achieved " + "stable " + "qubits " + "at " + "room " +
        "temperature, " + "potentially " + "accelerating " + "quantum " + "computing " +
        "adoption.\n" +
        "\n" +
        "3. " + "**New " + "Privacy " + "Regulations " + "Coming " + "into " +
        "Effect**\n" +
        "   " + "Companies " + "will " + "face " + "stricter " + "data " + "handling " +
        "requirements " + "starting " + "next " + "month.\n" +
        "\n" +
        "## " + "Industry " + "Insights\n" +
        "\n" +
        "The " + "shift " + "toward " + "edge " + "computing " + "continues " + "to " +
        "accelerate, " + "with " + "new " + "frameworks " + "making " + "deployment " +
        "easier " + "than " + "ever. " + "Our " + "analysis " + "shows " + "a " + "40% " +
        "increase " + "in " + "edge " + "computing " + "implementations " + "compared " +
        "to " + "last " + "year.\n" +
        "\n" +
        "## " + "Upcoming " + "Events\n" +
        "\n" +
        "- " + "AI " + "Developer " + "Conference: " + "May " + "15-17, " + "Virtual\n" +
        "- " + "Cloud " + "Innovation " + "Summit: " + "May " + "20, " + "New " +
        "York\n" +
        "- " + "Open " + "Source " + "Contributors " + "Meetup: " + "May " + "25, " +
        "Online\n" +
        "\n" +
        "Stay " + "curious!\n" +
        "Tech " + "Blog " + "Team\n" +
        "    ",
      date := "2023-04-29T08:00:00",
      unread := true,
      analysis := None)
  }
}
