/** The partner directory: the fixed partner table, its four filters and the two fixed tabs. */
module BrowseSpeakers {
  import opened Text
  import opened Filtering

  /** A language partner (the display-only `avatarUrl` and `rating` are not modelled). */
  datatype Partner = Partner(
    id: string,
    name: string,
    nativeLanguage: string,
    learningLanguage: string,
    availability: string)

  const Partners: seq<Partner> := [
    Partner("1", "Maria Rodriguez", "Spanish", "English", "Evenings & Weekends"),
    Partner("2", "Hiroshi Tanaka", "Japanese", "English", "Mornings"),
    Partner("3", "Sophie Dubois", "French", "German", "Weekends"),
    Partner("4", "Li Wei", "Mandarin", "English", "Evenings"),
    Partner("5", "Carlos Mendoza", "Spanish", "French", "Afternoons"),
    Partner("6", "Aisha Khan", "Arabic", "English", "Flexible"),
    Partner("7", "Paolo Rossi", "Italian", "German", "Evenings"),
    Partner("8", "Yuki Sato", "Japanese", "Spanish", "Weekends")
  ]

  /** The page's four filter inputs. */
  datatype Filters = Filters(
    searchQuery: string,
    selectedLanguage: string,
    selectedLearningLanguage: string,
    selectedAvailability: string)

  const InitialFilters: Filters := Filters("", "", "", "")

  /** The name contains the query, ignoring case. */
  predicate MatchesSearch(p: Partner, f: Filters) {
    Contains(Lower(p.name), Lower(f.searchQuery))
  }

  /** No native language chosen, or exactly the chosen one. */
  predicate MatchesLanguage(p: Partner, f: Filters) {
    f.selectedLanguage == "" || p.nativeLanguage == f.selectedLanguage
  }

  /** No learning language chosen, or exactly the chosen one. */
  predicate MatchesLearningLanguage(p: Partner, f: Filters) {
    f.selectedLearningLanguage == "" || p.learningLanguage == f.selectedLearningLanguage
  }

  /** No availability chosen, or the availability contains it, ignoring case. */
  predicate MatchesAvailability(p: Partner, f: Filters) {
    f.selectedAvailability == "" || Contains(Lower(p.availability), Lower(f.selectedAvailability))
  }

  predicate Matches(p: Partner, f: Filters) {
    MatchesSearch(p, f) && MatchesLanguage(p, f) && MatchesLearningLanguage(p, f) && MatchesAvailability(p, f)
  }

  /** `filteredPartners`. */
  function FilteredPartners(ps: seq<Partner>, f: Filters): seq<Partner> {
    Filter(ps, p => Matches(p, f))
  }

  /**
   * The result is an order-preserving subsequence of the table, and a partner
   * is in it exactly when all four conditions hold.
   */
  lemma FilteredPartnersSpec(ps: seq<Partner>, f: Filters)
    ensures IsSubsequence(FilteredPartners(ps, f), ps)
    ensures forall p :: p in FilteredPartners(ps, f) <==> p in ps && Matches(p, f)
  {
    FilterIsSubsequence(ps, p => Matches(p, f));
    forall p ensures p in FilteredPartners(ps, f) <==> p in ps && Matches(p, f) {
      FilterMembership(ps, p => Matches(p, f), p);
    }
  }

  /** An empty query matches every name. */
  lemma EmptySearchMatchesAll(p: Partner, f: Filters)
    requires f.searchQuery == ""
    ensures MatchesSearch(p, f)
  {
    ContainsEmpty(Lower(p.name));
  }

  /** The search and availability tests ignore the case of what was typed or chosen. */
  lemma MatchesIgnoresQueryCase(p: Partner, f: Filters)
    ensures Matches(p, f) == Matches(p, f.(searchQuery := Upper(f.searchQuery)))
    ensures f.selectedAvailability != "" ==>
      Matches(p, f) == Matches(p, f.(selectedAvailability := Upper(f.selectedAvailability)))
  {
    LowerForgetsCase(f.searchQuery);
    LowerForgetsCase(f.selectedAvailability);
    if f.selectedAvailability != "" {
      assert |Upper(f.selectedAvailability)| > 0;
    }
  }

  /** With every filter at its initial "", all eight partners are shown, in order. */
  lemma InitialFiltersShowAll()
    ensures FilteredPartners(Partners, InitialFilters) == Partners
    ensures |FilteredPartners(Partners, InitialFilters)| == 8
  {
    forall i | 0 <= i < |Partners| ensures Matches(Partners[i], InitialFilters) {
      EmptySearchMatchesAll(Partners[i], InitialFilters);
    }
    FilterKeepsAll(Partners, p => Matches(p, InitialFilters));
  }

  /** A string without the letter y, in either case, does not contain "any" once lower-cased. */
  lemma NoAnyWithoutY(s: string)
    requires !HasY(s)
    ensures !Contains(Lower(s), "any")
  {
    if Contains(Lower(s), "any") {
      ContainsChars(Lower(s), "any", 2);
      var k :| 0 <= k < |Lower(s)| && Lower(s)[k] == 'y';
    }
  }

  /** The letter y, in either case, occurs in the text. */
  predicate HasY(s: string) {
    'y' in s || 'Y' in s
  }

  lemma NoYInEveningsAndWeekends() ensures !HasY("Evenings & Weekends") { }
  lemma NoYInMornings() ensures !HasY("Mornings") { }
  lemma NoYInWeekends() ensures !HasY("Weekends") { }
  lemma NoYInEvenings() ensures !HasY("Evenings") { }
  lemma NoYInAfternoons() ensures !HasY("Afternoons") { }
  lemma NoYInFlexible() ensures !HasY("Flexible") { }

  /** No seeded partner's availability contains a y. */
  lemma AvailabilityHasNoY(i: nat)
    requires i < |Partners|
    ensures !HasY(Partners[i].availability)
  {
    if i == 0 {
      NoYInEveningsAndWeekends();
    } else if i == 1 {
      NoYInMornings();
    } else if i == 2 || i == 7 {
      NoYInWeekends();
    } else if i == 3 || i == 6 {
      NoYInEvenings();
    } else if i == 4 {
      NoYInAfternoons();
    } else {
      NoYInFlexible();
    }
  }

  lemma NoLanguageIsAll(i: nat)
    requires i < |Partners|
    ensures Partners[i].nativeLanguage != "all" && Partners[i].learningLanguage != "all"
  {
    assert Partners[i].nativeLanguage in {"Spanish", "Japanese", "French", "Mandarin", "Arabic", "Italian"};
    assert Partners[i].learningLanguage in {"English", "German", "French", "Spanish"};
  }

  /**
   * The "all" and "any" options are compared literally: no partner's language
   * is "all", and no availability contains "any", so choosing either shows
   * nobody.
   */
  lemma AllOrAnyOptionShowsNobody(f: Filters)
    requires f.selectedLanguage == "all" || f.selectedLearningLanguage == "all" || f.selectedAvailability == "any"
    ensures FilteredPartners(Partners, f) == []
  {
    forall i | 0 <= i < |Partners| ensures !Matches(Partners[i], f) {
      NoLanguageIsAll(i);
      if f.selectedAvailability == "any" {
        assert Lower("any") == "any";
        AvailabilityHasNoY(i);
        NoAnyWithoutY(Partners[i].availability);
      }
    }
    FilterKeepsNone(Partners, p => Matches(p, f));
  }

  /** The "Online Now" tab: `partners.slice(0, 4)`, whatever the filters. */
  function OnlinePartners(): seq<Partner> {
    Slice(Partners, 0, 4)
  }

  /** The "Recommended" tab: `partners.slice(2, 6)`, whatever the filters. */
  function RecommendedPartners(): seq<Partner> {
    Slice(Partners, 2, 6)
  }

  /** The fixed tabs hold the first four partners and the third to sixth. */
  lemma FixedTabs()
    ensures OnlinePartners() == Partners[0..4]
    ensures |OnlinePartners()| == 4 && OnlinePartners()[0].name == "Maria Rodriguez" && OnlinePartners()[3].name == "Li Wei"
    ensures RecommendedPartners() == Partners[2..6]
    ensures |RecommendedPartners()| == 4 && RecommendedPartners()[0].name == "Sophie Dubois"
      && RecommendedPartners()[3].name == "Aisha Khan"
  {
  }

  /** `handleScheduleWithPartner`: the route pushed for a partner. */
  function ScheduleTarget(partnerId: string): (r: string)
    ensures "/schedule/" <= r && r[|"/schedule/"|..] == partnerId
  {
    "/schedule/" + partnerId
  }
}
