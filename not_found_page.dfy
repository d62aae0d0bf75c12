/**
 * The suggestion search of src/pages/NotFoundPage.tsx: a blank query lists
 * every suggestion; any other query keeps, in order, the suggestions whose
 * lower-cased title or description contains the lower-cased query.
 */
module NotFoundPage {
  import opened Strings
  import Seqs

  datatype Suggestion = Suggestion(title: string, path: string, description: string)

  /** The six pages offered on the 404 page. */
  function Suggestions(): (all: seq<Suggestion>)
    ensures |all| == 6
  {
    [ Suggestion("Home", "/", "Return to our homepage"),
      Suggestion("About Us", "/about", "Learn about our mission"),
      Suggestion("Our Products", "/#products", "Explore our AI solutions"),
      Suggestion("Contact Support", "/support", "Get help from our team"),
      Suggestion("Pricing", "/pricing", "View our pricing plans"),
      Suggestion("Blog", "/blog", "Read our latest articles") ]
  }

  /** The filter's test: the lower-cased query occurs in the lower-cased title or description. */
  function Matches(s: Suggestion, query: string): (found: bool)
    ensures found ==> |query| <= |s.title| || |query| <= |s.description|
  {
    Contains(ToLower(s.title), ToLower(query)) || Contains(ToLower(s.description), ToLower(query))
  }

  /** The effect on `searchQuery`: emptiness is judged on the trimmed query, matching uses it untrimmed. */
  function FilterSuggestions(suggestions: seq<Suggestion>, query: string): (shown: seq<Suggestion>)
    ensures |shown| <= |suggestions|
    ensures AllWhitespace(query) ==> shown == suggestions
    ensures !AllWhitespace(query) ==> forall i | 0 <= i < |shown| :: shown[i] in suggestions && Matches(shown[i], query)
    ensures !AllWhitespace(query) ==> forall i | 0 <= i < |suggestions| :: Matches(suggestions[i], query) ==> suggestions[i] in shown
    ensures Seqs.IsSubsequence(shown, suggestions)
    ensures forall s {:trigger multiset(shown)[s]} :: multiset(shown)[s] == if AllWhitespace(query) || Matches(s, query) then multiset(suggestions)[s] else 0
  {
    if Trim(query) == "" then Seqs.SubsequenceOfItself(suggestions); suggestions
    else
      Seqs.FilterIsSubsequence(suggestions, s => Matches(s, query));
      Seqs.FilterCount(suggestions, s => Matches(s, query));
      Seqs.Filter(suggestions, s => Matches(s, query))
  }

  /** For a query that is not blank, a suggestion is listed exactly when it is on offer and matches. */
  lemma ShownIffMatches(suggestions: seq<Suggestion>, query: string, s: Suggestion)
    requires !AllWhitespace(query)
    ensures s in FilterSuggestions(suggestions, query) <==> s in suggestions && Matches(s, query)
  {
    var shown := FilterSuggestions(suggestions, query);
    if s in shown {
      var i :| 0 <= i < |shown| && shown[i] == s;
    }
    if s in suggestions && Matches(s, query) {
      var i :| 0 <= i < |suggestions| && suggestions[i] == s;
    }
  }

  /** Queries that differ only in letter case list the same suggestions. */
  lemma CaseInsensitive(suggestions: seq<Suggestion>, q1: string, q2: string)
    requires ToLower(q1) == ToLower(q2)
    ensures FilterSuggestions(suggestions, q1) == FilterSuggestions(suggestions, q2)
  {
    ToLowerKeepsWhitespace(q1);
    ToLowerKeepsWhitespace(q2);
    if !AllWhitespace(q1) {
      Seqs.FilterCongruent(suggestions, s => Matches(s, q1), s => Matches(s, q2));
    }
  }

  /** "No results found" is shown exactly when the list is empty, which a blank query never gives. */
  function ShowsNoResults(query: string): (empty: bool)
    ensures empty <==> FilterSuggestions(Suggestions(), query) == []
    ensures empty ==> !AllWhitespace(query)
  {
    |FilterSuggestions(Suggestions(), query)| == 0
  }

  /** The query is matched untrimmed: " blog" misses the Blog page that "blog" finds. */
  lemma PaddedQueryMissesBlog(blog: Suggestion, padded: string, plain: string)
    requires blog == Suggestions()[5] && padded == " blog" && plain == "blog"
    ensures Matches(blog, plain)
    ensures !Matches(blog, padded)
    ensures !AllWhitespace(padded)
  {
    assert ToLower(blog.title) == plain by {
      assert forall i | 0 <= i < 4 :: ToLower(blog.title)[i] == LowerChar(blog.title[i]);
    }
    assert ToLower(plain) == plain by {
      assert forall i | 0 <= i < 4 :: ToLower(plain)[i] == LowerChar(plain[i]);
    }
    assert OccursAt(ToLower(blog.title), ToLower(plain), 0);
    assert ToLower(padded)[1] == 'b';
    assert !Contains(ToLower(blog.description), ToLower(padded)) by {
      MissingCharacter(ToLower(blog.description), ToLower(padded), 1);
    }
    assert !IsWhitespace(padded[1]);
  }

  /** A string in which some character of `sub` never appears does not contain `sub`. */
  lemma MissingCharacter(s: string, sub: string, j: nat)
    requires j < |sub|
    requires forall i | 0 <= i < |s| :: s[i] != sub[j]
    ensures !Contains(s, sub)
  {
    forall i | 0 <= i <= |s| - |sub|
      ensures !OccursAt(s, sub, i)
    {
      assert s[i..i + |sub|][j] == s[i + j];
    }
  }
}
