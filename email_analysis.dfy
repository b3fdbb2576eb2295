/** The inbox view: the search and category filter over the list, and the
    view state that expanding, analysing and refreshing step through. */
module EmailAnalysis {
  import opened Outcomes
  import opened Text
  import opened MockData
  import EmailService

  /** The search test: an empty term lets every record through; otherwise
      the lower-cased term must occur in the lower-cased subject, sender name
      or sender address. */
  predicate MatchesSearch(e: Email, searchTerm: string) {
    searchTerm == ""
    || Contains(Lower(e.subject), Lower(searchTerm))
    || Contains(Lower(e.from.name), Lower(searchTerm))
    || Contains(Lower(e.from.email), Lower(searchTerm))
  }

  /** The category test: "all" lets every record through; otherwise the
      record needs an analysis whose lower-cased category equals the selected
      type as it stands (the selected type itself is not lower-cased). */
  predicate MatchesType(e: Email, selectedType: string) {
    selectedType == "all" || (e.analysis.Some? && Lower(e.analysis.value.kind) == selectedType)
  }

  /** The filter's callback, with its redundant second test of "all". */
  predicate Shown(e: Email, searchTerm: string, selectedType: string) {
    MatchesSearch(e, searchTerm) && (selectedType == "all" || MatchesType(e, selectedType))
  }

  /** `filteredEmails`: the records that pass both tests, in list order. */
  function FilterEmails(emails: seq<Email>, searchTerm: string, selectedType: string): (r: seq<Email>)
    ensures |r| <= |emails|
    ensures forall e | e in r :: e in emails && Shown(e, searchTerm, selectedType)
  {
    if emails == [] then []
    else
      var rest := FilterEmails(emails[1..], searchTerm, selectedType);
      if Shown(emails[0], searchTerm, selectedType) then [emails[0]] + rest else rest
  }

  /** `a` is `b` with some elements left out and the others kept in order. */
  predicate IsSubsequence<T(==)>(a: seq<T>, b: seq<T>)
    decreases |b|
  {
    a == []
    || (b != [] && (IsSubsequence(a, b[1..]) || (a[0] == b[0] && IsSubsequence(a[1..], b[1..]))))
  }

  /** The filter only drops records; it never reorders or invents them. */
  lemma {:induction false} FilterIsSubsequence(emails: seq<Email>, searchTerm: string, selectedType: string)
    ensures IsSubsequence(FilterEmails(emails, searchTerm, selectedType), emails)
  {
    if emails != [] {
      FilterIsSubsequence(emails[1..], searchTerm, selectedType);
    }
  }

  /** A record is shown exactly when it is in the list and passes both tests. */
  lemma {:induction false} FilterMembership(emails: seq<Email>, searchTerm: string, selectedType: string, e: Email)
    ensures e in FilterEmails(emails, searchTerm, selectedType) <==> e in emails && Shown(e, searchTerm, selectedType)
  {
    if emails != [] {
      FilterMembership(emails[1..], searchTerm, selectedType, e);
      assert e in emails <==> e == emails[0] || e in emails[1..];
    }
  }

  /** Every record that passes is kept as often as it occurs in the list;
      every other record is dropped. */
  lemma {:induction false} FilterCounts(emails: seq<Email>, searchTerm: string, selectedType: string, e: Email)
    ensures multiset(FilterEmails(emails, searchTerm, selectedType))[e]
         == if Shown(e, searchTerm, selectedType) then multiset(emails)[e] else 0
  {
    if emails != [] {
      FilterCounts(emails[1..], searchTerm, selectedType, e);
      assert emails == [emails[0]] + emails[1..];
    }
  }

  /** With no search term and the "all" category the whole list is shown,
      in its order. */
  lemma {:induction false} FilterAllIsIdentity(emails: seq<Email>)
    ensures FilterEmails(emails, "", "all") == emails
  {
    if emails != [] {
      FilterAllIsIdentity(emails[1..]);
      assert [emails[0]] + emails[1..] == emails;
    }
  }

  /** Under any category other than "all" only analysed records are shown. */
  lemma UnanalyzedExcluded(emails: seq<Email>, searchTerm: string, selectedType: string)
    requires selectedType != "all"
    ensures forall e | e in FilterEmails(emails, searchTerm, selectedType) :: e.analysis.Some?
  {
  }

  /** A list none of whose records passes the tests filters to nothing. */
  lemma {:induction false} NoneShownFiltersToEmpty(emails: seq<Email>, searchTerm: string, selectedType: string)
    requires forall e | e in emails :: !Shown(e, searchTerm, selectedType)
    ensures FilterEmails(emails, searchTerm, selectedType) == []
  {
    if emails != [] {
      assert emails[0] in emails;
      NoneShownFiltersToEmpty(emails[1..], searchTerm, selectedType);
    }
  }

  /** A selected type with a capital letter matches no category, since the
      record's category is lower-cased and the selected type is not. */
  lemma UpperCaseTypeShowsNothing(emails: seq<Email>, searchTerm: string, selectedType: string)
    requires HasUpper(selectedType)
    ensures FilterEmails(emails, searchTerm, selectedType) == []
  {
    assert !HasUpper("all");
    forall e | e in emails ensures !Shown(e, searchTerm, selectedType) {
      if e.analysis.Some? {
        LowerHasNoUpper(e.analysis.value.kind);
      }
    }
    NoneShownFiltersToEmpty(emails, searchTerm, selectedType);
  }

  /** Filtering the filtered list again changes nothing. */
  lemma {:induction false} FilterIdempotent(emails: seq<Email>, searchTerm: string, selectedType: string)
    ensures FilterEmails(FilterEmails(emails, searchTerm, selectedType), searchTerm, selectedType)
         == FilterEmails(emails, searchTerm, selectedType)
  {
    if emails != [] {
      FilterIdempotent(emails[1..], searchTerm, selectedType);
      var rest := FilterEmails(emails[1..], searchTerm, selectedType);
      if Shown(emails[0], searchTerm, selectedType) {
        assert ([emails[0]] + rest)[1..] == rest;
      }
    }
  }

  /** The search ignores the case of the term. */
  lemma SearchIgnoresTermCase(e: Email, searchTerm: string)
    ensures MatchesSearch(e, searchTerm) <==> MatchesSearch(e, Lower(searchTerm))
  {
    LowerIdempotent(searchTerm);
    assert searchTerm == "" <==> Lower(searchTerm) == "";
  }

  /** A freshly fetched inbox shows nothing under a category: no fetched
      record carries an analysis yet. */
  lemma FetchedInboxHasNoCategories(searchTerm: string, selectedType: string)
    requires selectedType != "all"
    ensures FilterEmails(EmailService.FetchEmails(), searchTerm, selectedType) == []
  {
    // Only the contract of the fetch is needed, not the fixture's texts.
    hide EmailService.FetchEmails;
    NoneShownFiltersToEmpty(EmailService.FetchEmails(), searchTerm, selectedType);
  }

  /** `handleToggleExpand`'s new value: the expanded card collapses, any
      other card is expanded in place of the one before. */
  function Toggled(expanded: Option<string>, emailId: string): (r: Option<string>)
    ensures r == None <==> expanded == Some(emailId)
    ensures r != None ==> r == Some(emailId)
  {
    if expanded == Some(emailId) then None else Some(emailId)
  }

  /** After a toggle the card is expanded exactly when it was not before, and
      no other card is. */
  lemma ToggleExpandsOnlyThatCard(expanded: Option<string>, emailId: string, other: string)
    requires other != emailId
    ensures Toggled(expanded, emailId) == Some(emailId) <==> expanded != Some(emailId)
    ensures Toggled(expanded, emailId) != Some(other)
  {
  }

  /** Toggling the same card twice restores the state, when no other card
      was expanded before ... */
  lemma ToggleTwiceRestores(expanded: Option<string>, emailId: string)
    requires expanded == None || expanded == Some(emailId)
    ensures Toggled(Toggled(expanded, emailId), emailId) == expanded
  {
  }

  /** ... and otherwise leaves everything collapsed. */
  lemma ToggleTwiceFromOtherCard(expanded: Option<string>, emailId: string)
    requires expanded.Some? && expanded != Some(emailId)
    ensures Toggled(Toggled(expanded, emailId), emailId) == None
    ensures Toggled(Toggled(expanded, emailId), emailId) != expanded
  {
  }

  /** The view state of the inbox. `emails` is the list the page hands down
      and replaces through `onEmailsChange`. */
  class InboxView {
    var emails: seq<Email>
    var expandedEmailId: Option<string>
    var analyzingEmailId: Option<string>
    var isRefreshing: bool
    var searchTerm: string
    var selectedType: string

    constructor (emails: seq<Email>)
      ensures this.emails == emails && expandedEmailId == None && analyzingEmailId == None
      ensures !isRefreshing && searchTerm == "" && selectedType == "all"
    {
      this.emails := emails;
      expandedEmailId := None;
      analyzingEmailId := None;
      isRefreshing := false;
      searchTerm := "";
      selectedType := "all";
    }

    /** The records the view lists. */
    function Filtered(): (r: seq<Email>)
      reads this
      ensures forall e | e in r :: e in emails && Shown(e, searchTerm, selectedType)
    {
      FilterEmails(emails, searchTerm, selectedType)
    }

    /** The search box's change handler. */
    method SetSearchTerm(term: string)
      modifies this
      ensures searchTerm == term && selectedType == old(selectedType) && emails == old(emails)
      ensures expandedEmailId == old(expandedEmailId) && analyzingEmailId == old(analyzingEmailId)
      ensures isRefreshing == old(isRefreshing)
    {
      searchTerm := term;
    }

    /** A category badge's click handler: it selects that table value. */
    method SelectType(entry: EmailType)
      modifies this
      ensures selectedType == entry.value && searchTerm == old(searchTerm) && emails == old(emails)
      ensures expandedEmailId == old(expandedEmailId) && analyzingEmailId == old(analyzingEmailId)
      ensures isRefreshing == old(isRefreshing)
    {
      selectedType := entry.value;
    }

    /** `handleToggleExpand`. */
    method ToggleExpand(emailId: string)
      modifies this
      ensures expandedEmailId == Toggled(old(expandedEmailId), emailId)
      ensures emails == old(emails) && analyzingEmailId == old(analyzingEmailId)
      ensures isRefreshing == old(isRefreshing) && searchTerm == old(searchTerm)
      ensures selectedType == old(selectedType)
    {
      expandedEmailId := Toggled(expandedEmailId, emailId);
    }

    /** `handleAnalyzeEmail` up to its `await`: the card is marked busy. */
    method StartAnalyze(emailId: string)
      modifies this
      ensures analyzingEmailId == Some(emailId)
      ensures emails == old(emails) && expandedEmailId == old(expandedEmailId)
      ensures isRefreshing == old(isRefreshing) && searchTerm == old(searchTerm)
      ensures selectedType == old(selectedType)
    {
      analyzingEmailId := Some(emailId);
    }

    /** `handleAnalyzeEmail` after its `await`: the list is replaced only on
      success, and the busy marker is cleared in either case. */
    method FinishAnalyze(result: Result<seq<Email>>)
      modifies this
      ensures emails == (if result.Ok? then result.value else old(emails))
      ensures analyzingEmailId == None
      ensures expandedEmailId == old(expandedEmailId) && isRefreshing == old(isRefreshing)
      ensures searchTerm == old(searchTerm) && selectedType == old(selectedType)
    {
      if result.Ok? {
        emails := result.value;
      }
      analyzingEmailId := None;
    }

    /** `handleAnalyzeEmail`: analyse the record in the current list. An
      unknown id leaves the list as it was. */
    method HandleAnalyzeEmail(emailId: string)
      modifies this
      ensures var updated := EmailService.Updated(old(emails), emailId);
        emails == (if updated.Ok? then updated.value else old(emails))
      ensures analyzingEmailId == None
      ensures expandedEmailId == old(expandedEmailId) && isRefreshing == old(isRefreshing)
      ensures searchTerm == old(searchTerm) && selectedType == old(selectedType)
    {
      StartAnalyze(emailId);
      var result := EmailService.AnalyzeEmail(emailId, emails);
      FinishAnalyze(result);
    }

    /** `handleRefresh` up to its `await`. */
    method StartRefresh()
      modifies this
      ensures isRefreshing
      ensures emails == old(emails) && expandedEmailId == old(expandedEmailId)
      ensures analyzingEmailId == old(analyzingEmailId) && searchTerm == old(searchTerm)
      ensures selectedType == old(selectedType)
    {
      isRefreshing := true;
    }

    /** `handleRefresh` after its `await`: the fetched list replaces the old
      one on success; on failure the list stays; either way refreshing ends. */
    method FinishRefresh(fetched: Result<seq<Email>>)
      modifies this
      ensures emails == (if fetched.Ok? then fetched.value else old(emails))
      ensures !isRefreshing
      ensures expandedEmailId == old(expandedEmailId) && analyzingEmailId == old(analyzingEmailId)
      ensures searchTerm == old(searchTerm) && selectedType == old(selectedType)
    {
      if fetched.Ok? {
        emails := fetched.value;
      }
      isRefreshing := false;
    }

    /** `handleRefresh`: the fixture replaces the list wholesale, so no
      earlier analysis survives a refresh and a view under any category but
      "all" lists nothing afterwards. */
    method HandleRefresh()
      modifies this
      ensures emails == EmailService.FetchEmails() && !isRefreshing
      ensures expandedEmailId == old(expandedEmailId) && analyzingEmailId == old(analyzingEmailId)
      ensures searchTerm == old(searchTerm) && selectedType == old(selectedType)
      ensures selectedType != "all" ==> Filtered() == []
    {
      hide EmailService.FetchEmails;
      StartRefresh();
      var fetched := EmailService.FetchEmails();
      FinishRefresh(Ok(fetched));
      if selectedType != "all" {
        FetchedInboxHasNoCategories(searchTerm, selectedType);
      }
    }
  }
}
