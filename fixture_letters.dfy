/** Letters missing from the fixture's texts. A keyword with a letter that a
    text lacks in both cases cannot occur in the lower-cased text; these
    facts let the classifier's tests be decided on the fixture. */
module FixtureLetters {
  import opened MockData

  /** The subject of fixture record 2 has no 'p' in either case. */
  lemma SalesSubjectHasNoP()
    ensures 'p' !in SalesEmail().subject && 'P' !in SalesEmail().subject
  {
    var b := "Boost ";
    b := b + "Your ";
    assert 'p' !in b && 'P' !in b;
    b := b + "Revenue ";
    assert 'p' !in b && 'P' !in b;
    b := b + "with ";
    assert 'p' !in b && 'P' !in b;
    b := b + "Our ";
    assert 'p' !in b && 'P' !in b;
    b := b + "SaaS ";
    assert 'p' !in b && 'P' !in b;
    b := b + "Solution";
    assert 'p' !in b && 'P' !in b;
    assert b == SalesEmail().subject;
  }

  /** The body of fixture record 2 has no 'x' in either case. The body is
      rebuilt from its pieces a few at a time by the lemmas that follow. */
  lemma SalesBodyHasNoX()
    ensures 'x' !in SalesEmail().body && 'X' !in SalesEmail().body
  {
    var b := SalesBodyPart1();
    b := SalesBodyPart2(b);
    b := SalesBodyPart3(b);
    b := SalesBodyPart4(b);
    b := SalesBodyPart5(b);
    b := SalesBodyPart6(b);
    b := SalesBodyPart7(b);
    b := SalesBodyPart8(b);
    b := SalesBodyPart9(b);
    b := SalesBodyPart10(b);
    b := SalesBodyPart11(b);
    b := SalesBodyPart12(b);
    b := SalesBodyPart13(b);
    b := SalesBodyPart14(b);
    b := SalesBodyPart15(b);
    b := SalesBodyPart16(b);
    b := SalesBodyPart17(b);
    b := SalesBodyPart18(b);
    b := SalesBodyPart19(b);
    b := SalesBodyPart20(b);
    b := SalesBodyPart21(b);
    b := SalesBodyPart22(b);
    b := SalesBodyPart23(b);
    assert b == SalesEmail().body;
  }

  // The body of record 2, four pieces at a time, with the letter test
  // carried along.

  lemma SalesBodyPart1() returns (b: string)
    ensures b == "\n" + "Hello " + "there,\n" + "\n" && 'x' !in b && 'X' !in b
  {
    b := "\n";
    b := b + "Hello ";
    assert 'x' !in b && 'X' !in b;
    b := b + "there,\n";
    assert 'x' !in b && 'X' !in b;
    b := b + "\n";
    assert 'x' !in b && 'X' !in b;
  }

  lemma SalesBodyPart2(a: string) returns (b: string)
    requires 'x' !in a && 'X' !in a
    ensures b == a + "Are " + "you " + "looking " + "to " && 'x' !in b && 'X' !in b
  {
    b := a;
    b := b + "Are ";
    assert 'x' !in b && 'X' !in b;
    b := b + "you ";
    assert 'x' !in b && 'X' !in b;
    b := b + "looking ";
    assert 'x' !in b && 'X' !in b;
    b := b + "to ";
    assert 'x' !in b && 'X' !in b;
  }

  lemma SalesBodyPart3(a: string) returns (b: string)
    requires 'x' !in a && 'X' !in a
    ensures b == a + "increase " + "your " + "company's " + "revenue? " && 'x' !in b && 'X' !in b
  {
    b := a;
    b := b + "increase ";
    assert 'x' !in b && 'X' !in b;
    b := b + "your ";
    assert 'x' !in b && 'X' !in b;
    b := b + "company's ";
    assert 'x' !in b && 'X' !in b;
    b := b + "revenue? ";
    assert 'x' !in b && 'X' !in b;
  }

  lemma SalesBodyPart4(a: string) returns (b: string)
    requires 'x' !in a && 'X' !in a
    ensures b == a + "Our " + "AI-powered " + "SaaS " + "solution " && 'x' !in b && 'X' !in b
  {
    b := a;
    b := b + "Our ";
    assert 'x' !in b && 'X' !in b;
    b := b + "AI-powered ";
    assert 'x' !in b && 'X' !in b;
    b := b + "SaaS ";
    assert 'x' !in b && 'X' !in b;
    b := b + "solution ";
    assert 'x' !in b && 'X' !in b;
  }

  lemma SalesBodyPart5(a: string) returns (b: string)
    requires 'x' !in a && 'X' !in a
    ensures b == a + "has " + "been " + "helping " + "businesses " && 'x' !in b && 'X' !in b
  {
    b := a;
    b := b + "has ";
    assert 'x' !in b && 'X' !in b;
    b := b + "been ";
    assert 'x' !in b && 'X' !in b;
    b := b + "helping ";
    assert 'x' !in b && 'X' !in b;
    b := b + "businesses ";
    assert 'x' !in b && 'X' !in b;
  }

  lemma SalesBodyPart6(a: string) returns (b: string)
    requires 'x' !in a && 'X' !in a
    ensures b == a + "like " + "yours " + "achieve " + "remarkable " && 'x' !in b && 'X' !in b
  {
    b := a;
    b := b + "like ";
    assert 'x' !in b && 'X' !in b;
    b := b + "yours ";
    assert 'x' !in b && 'X' !in b;
    b := b + "achieve ";
    assert 'x' !in b && 'X' !in b;
    b := b + "remarkable ";
    assert 'x' !in b && 'X' !in b;
  }

  lemma SalesBodyPart7(a: string) returns (b: string)
    requires 'x' !in a && 'X' !in a
    ensures b == a + "results.\n" + "\n" + "Key " + "benefits:\n" && 'x' !in b && 'X' !in b
  {
    b := a;
    b := b + "results.\n";
    assert 'x' !in b && 'X' !in b;
    b := b + "\n";
    assert 'x' !in b && 'X' !in b;
    b := b + "Key ";
    assert 'x' !in b && 'X' !in b;
    b := b + "benefits:\n";
    assert 'x' !in b && 'X' !in b;
  }

  lemma SalesBodyPart8(a: string) returns (b: string)
    requires 'x' !in a && 'X' !in a
    ensures b == a + "- " + "30% " + "average " + "increase " && 'x' !in b && 'X' !in b
  {
    b := a;
    b := b + "- ";
    assert 'x' !in b && 'X' !in b;
    b := b + "30% ";
    assert 'x' !in b && 'X' !in b;
    b := b + "average ";
    assert 'x' !in b && 'X' !in b;
    b := b + "increase ";
    assert 'x' !in b && 'X' !in b;
  }

  lemma SalesBodyPart9(a: string) returns (b: string)
    requires 'x' !in a && 'X' !in a
    ensures b == a + "in " + "conversion " + "rates\n" + "- " && 'x' !in b && 'X' !in b
  {
    b := a;
    b := b + "in ";
    assert 'x' !in b && 'X' !in b;
    b := b + "conversion ";
    assert 'x' !in b && 'X' !in b;
    b := b + "rates\n";
    assert 'x' !in b && 'X' !in b;
    b := b + "- ";
    assert 'x' !in b && 'X' !in b;
  }

  lemma SalesBodyPart10(a: string) returns (b: string)
    requires 'x' !in a && 'X' !in a
    ensures b == a + "Automated " + "customer " + "journey " + "mapping\n" && 'x' !in b && 'X' !in b
  {
    b := a;
    b := b + "Automated ";
    assert 'x' !in b && 'X' !in b;
    b := b + "customer ";
    assert 'x' !in b && 'X' !in b;
    b := b + "journey ";
    assert 'x' !in b && 'X' !in b;
    b := b + "mapping\n";
    assert 'x' !in b && 'X' !in b;
  }

  lemma SalesBodyPart11(a: string) returns (b: string)
    requires 'x' !in a && 'X' !in a
    ensures b == a + "- " + "Real-time " + "analytics " + "and " && 'x' !in b && 'X' !in b
  {
    b := a;
    b := b + "- ";
    assert 'x' !in b && 'X' !in b;
    b := b + "Real-time ";
    assert 'x' !in b && 'X' !in b;
    b := b + "analytics ";
    assert 'x' !in b && 'X' !in b;
    b := b + "and ";
    assert 'x' !in b && 'X' !in b;
  }

  lemma SalesBodyPart12(a: string) returns (b: string)
    requires 'x' !in a && 'X' !in a
    ensures b == a + "insights\n" + "\n" + "Our " + "clients, " && 'x' !in b && 'X' !in b
  {
    b := a;
    b := b + "insights\n";
    assert 'x' !in b && 'X' !in b;
    b := b + "\n";
    assert 'x' !in b && 'X' !in b;
    b := b + "Our ";
    assert 'x' !in b && 'X' !in b;
    b := b + "clients, ";
    assert 'x' !in b && 'X' !in b;
  }

  lemma SalesBodyPart13(a: string) returns (b: string)
    requires 'x' !in a && 'X' !in a
    ensures b == a + "including " + "Fortune " + "500 " + "companies, " && 'x' !in b && 'X' !in b
  {
    b := a;
    b := b + "including ";
    assert 'x' !in b && 'X' !in b;
    b := b + "Fortune ";
    assert 'x' !in b && 'X' !in b;
    b := b + "500 ";
    assert 'x' !in b && 'X' !in b;
    b := b + "companies, ";
    assert 'x' !in b && 'X' !in b;
  }

  lemma SalesBodyPart14(a: string) returns (b: string)
    requires 'x' !in a && 'X' !in a
    ensures b == a + "have " + "seen " + "significant " + "ROI " && 'x' !in b && 'X' !in b
  {
    b := a;
    b := b + "have ";
    assert 'x' !in b && 'X' !in b;
    b := b + "seen ";
    assert 'x' !in b && 'X' !in b;
    b := b + "significant ";
    assert 'x' !in b && 'X' !in b;
    b := b + "ROI ";
    assert 'x' !in b && 'X' !in b;
  }

  lemma SalesBodyPart15(a: string) returns (b: string)
    requires 'x' !in a && 'X' !in a
    ensures b == a + "within " + "just " + "3 " + "months " && 'x' !in b && 'X' !in b
  {
    b := a;
    b := b + "within ";
    assert 'x' !in b && 'X' !in b;
    b := b + "just ";
    assert 'x' !in b && 'X' !in b;
    b := b + "3 ";
    assert 'x' !in b && 'X' !in b;
    b := b + "months ";
    assert 'x' !in b && 'X' !in b;
  }

  lemma SalesBodyPart16(a: string) returns (b: string)
    requires 'x' !in a && 'X' !in a
    ensures b == a + "of " + "implementation.\n" + "\n" + "Would " && 'x' !in b && 'X' !in b
  {
    b := a;
    b := b + "of ";
    assert 'x' !in b && 'X' !in b;
    b := b + "implementation.\n";
    assert 'x' !in b && 'X' !in b;
    b := b + "\n";
    assert 'x' !in b && 'X' !in b;
    b := b + "Would ";
    assert 'x' !in b && 'X' !in b;
  }

  lemma SalesBodyPart17(a: string) returns (b: string)
    requires 'x' !in a && 'X' !in a
    ensures b == a + "you " + "be " + "interested " + "in " && 'x' !in b && 'X' !in b
  {
    b := a;
    b := b + "you ";
    assert 'x' !in b && 'X' !in b;
    b := b + "be ";
    assert 'x' !in b && 'X' !in b;
    b := b + "interested ";
    assert 'x' !in b && 'X' !in b;
    b := b + "in ";
    assert 'x' !in b && 'X' !in b;
  }

  lemma SalesBodyPart18(a: string) returns (b: string)
    requires 'x' !in a && 'X' !in a
    ensures b == a + "a " + "free " + "demo? " + "Just " && 'x' !in b && 'X' !in b
  {
    b := a;
    b := b + "a ";
    assert 'x' !in b && 'X' !in b;
    b := b + "free ";
    assert 'x' !in b && 'X' !in b;
    b := b + "demo? ";
    assert 'x' !in b && 'X' !in b;
    b := b + "Just ";
    assert 'x' !in b && 'X' !in b;
  }

  lemma SalesBodyPart19(a: string) returns (b: string)
    requires 'x' !in a && 'X' !in a
    ensures b == a + "reply " + "to " + "this " + "email, " && 'x' !in b && 'X' !in b
  {
    b := a;
    b := b + "reply ";
    assert 'x' !in b && 'X' !in b;
    b := b + "to ";
    assert 'x' !in b && 'X' !in b;
    b := b + "this ";
    assert 'x' !in b && 'X' !in b;
    b := b + "email, ";
    assert 'x' !in b && 'X' !in b;
  }

  lemma SalesBodyPart20(a: string) returns (b: string)
    requires 'x' !in a && 'X' !in a
    ensures b == a + "and " + "we'll " + "set " + "it " && 'x' !in b && 'X' !in b
  {
    b := a;
    b := b + "and ";
    assert 'x' !in b && 'X' !in b;
    b := b + "we'll ";
    assert 'x' !in b && 'X' !in b;
    b := b + "set ";
    assert 'x' !in b && 'X' !in b;
    b := b + "it ";
    assert 'x' !in b && 'X' !in b;
  }

  lemma SalesBodyPart21(a: string) returns (b: string)
    requires 'x' !in a && 'X' !in a
    ensures b == a + "up " + "right " + "away.\n" + "\n" && 'x' !in b && 'X' !in b
  {
    b := a;
    b := b + "up ";
    assert 'x' !in b && 'X' !in b;
    b := b + "right ";
    assert 'x' !in b && 'X' !in b;
    b := b + "away.\n";
    assert 'x' !in b && 'X' !in b;
    b := b + "\n";
    assert 'x' !in b && 'X' !in b;
  }

  lemma SalesBodyPart22(a: string) returns (b: string)
    requires 'x' !in a && 'X' !in a
    ensures b == a + "Best,\n" + "Mark " + "Johnson\n" + "Sales " && 'x' !in b && 'X' !in b
  {
    b := a;
    b := b + "Best,\n";
    assert 'x' !in b && 'X' !in b;
    b := b + "Mark ";
    assert 'x' !in b && 'X' !in b;
    b := b + "Johnson\n";
    assert 'x' !in b && 'X' !in b;
    b := b + "Sales ";
    assert 'x' !in b && 'X' !in b;
  }

  lemma SalesBodyPart23(a: string) returns (b: string)
    requires 'x' !in a && 'X' !in a
    ensures b == a + "Representative\n" + "SalesCompany " + "Inc.\n" + "    " && 'x' !in b && 'X' !in b
  {
    b := a;
    b := b + "Representative\n";
    assert 'x' !in b && 'X' !in b;
    b := b + "SalesCompany ";
    assert 'x' !in b && 'X' !in b;
    b := b + "Inc.\n";
    assert 'x' !in b && 'X' !in b;
    b := b + "    ";
    assert 'x' !in b && 'X' !in b;
  }
}
