/** The generators page: the client-side search over the loaded generators,
  * the list it shows and the count under it. */
module GeneratorsPage {
  import opened JsValues
  import Text
  import opened ClientLists

  /** `field?.toLowerCase().includes(term.toLowerCase())`: a missing or
    * non-string field never matches. */
  predicate FieldMatches(v: Js, term: string)
  {
    v.Str? && Text.Contains(Text.Lower(v.s), Text.Lower(term))
  }

  /** The search predicate: the name, the vehicle number or the assignee's
    * name contains the term, ignoring ASCII case. */
  predicate Matches(g: Obj, term: string)
  {
    FieldMatches(Prop(g, "name"), term) ||
    FieldMatches(Prop(g, "vehicleNum"), term) ||
    FieldMatches(Prop(g, "assignedToName"), term)
  }

  /** `generators.filter(g => Matches(g, term))`. */
  function Filter(generators: seq<Obj>, term: string): (r: seq<Obj>)
    ensures forall g :: g in r <==> g in generators && Matches(g, term)
    ensures Subsequence(r, generators)
  {
    if generators == [] then []
    else
      var rest := Filter(generators[1..], term);
      assert forall g :: g in generators <==> g == generators[0] || g in generators[1..];
      if Matches(generators[0], term) then
        assert ([generators[0]] + rest)[1..] == rest;
        [generators[0]] + rest
      else
        assert rest == [] || Subsequence(rest, generators[1..]);
        rest
  }

  lemma {:induction false} SubsequenceOfSelf(s: seq<Obj>)
    ensures Subsequence(s, s)
  {
    if s != [] {
      SubsequenceOfSelf(s[1..]);
    }
  }

  /** What the search effect stores: every generator while the trimmed term
    * is empty, otherwise the matching ones, in their order. The untrimmed
    * term is the one matched. */
  function Search(generators: seq<Obj>, term: string): (r: seq<Obj>)
    ensures Text.JsTrim(term) == "" ==> r == generators
    ensures Text.JsTrim(term) != "" ==> forall g :: g in r <==> g in generators && Matches(g, term)
    ensures Subsequence(r, generators)
  {
    if Text.JsTrim(term) == "" then
      SubsequenceOfSelf(generators);
      generators
    else Filter(generators, term)
  }

  /** The term is trimmed only to decide whether to search: a term with a
    * leading space does not find the generator whose name is the term
    * without it. */
  lemma PaddedTermMissesName()
    ensures var g: Obj := map["name" := Str("ab")];
      Text.JsTrim(" ab") != "" && Search([g], " ab") == []
  {
    var g: Obj := map["name" := Str("ab")];
    PaddedTermIsSearched();
    NameMissesPaddedTerm(g);
    SearchMissesUnmatched(g, " ab");
  }

  /** "ab" is shorter than " ab", so the name does not contain the term. */
  lemma NameMissesPaddedTerm(g: Obj)
    requires g == map["name" := Str("ab")]
    ensures !Matches(g, " ab")
  {
    LongerNotContained(Text.Lower("ab"), Text.Lower(" ab"));
  }

  /** A searched term that one generator does not match finds nothing in
    * the list holding only that generator. */
  lemma SearchMissesUnmatched(g: Obj, term: string)
    requires Text.JsTrim(term) != "" && !Matches(g, term)
    ensures Search([g], term) == []
  {
    assert [g][1..] == [];
  }

  /** " ab" is not blank, so the search runs. */
  lemma PaddedTermIsSearched()
    ensures Text.JsTrim(" ab") != ""
  {
    assert !Text.IsJsSpace(" ab"[1]);
    Text.TrimEmpty(" ab", Text.IsJsSpace);
  }

  /** A longer text never occurs in a shorter one. */
  lemma LongerNotContained(s: string, t: string)
    requires |s| < |t|
    ensures !Text.Contains(s, t)
  {
  }

  /** The count under the cards: shown when not loading and something is
    * listed, with the number listed and, while the search box holds any
    * text at all, the number loaded. */
  datatype Footer = Footer(listed: nat, outOf: Option<nat>)

  function FooterOf(loading: bool, filtered: seq<Obj>, generators: seq<Obj>, term: string): (f: Option<Footer>)
    ensures f.Some? <==> !loading && |filtered| > 0
    ensures f.Some? ==> f.value.listed == |filtered|
    ensures f.Some? ==> (f.value.outOf.Some? <==> term != "")
    ensures f.Some? && f.value.outOf.Some? ==> f.value.outOf.value == |generators|
  {
    if loading || |filtered| == 0 then None
    else Some(Footer(|filtered|, if term != "" then Some(|generators|) else None))
  }

  /** A blank but non-empty term lists every generator and still shows the
    * "out of" total. */
  lemma BlankTermShowsTotal(generators: seq<Obj>)
    requires |generators| > 0
    ensures Search(generators, " ") == generators
    ensures FooterOf(false, Search(generators, " "), generators, " ") ==
      Some(Footer(|generators|, Some(|generators|)))
  {
    assert Text.JsTrim(" ") == "" by {
      Text.TrimEmpty(" ", Text.IsJsSpace);
    }
  }

  /** The page's local state: the search box and the generators listed. */
  class GeneratorsPageState {
    var searchTerm: string
    var filteredGenerators: seq<Obj>

    constructor ()
      ensures searchTerm == "" && filteredGenerators == []
    {
      searchTerm := "";
      filteredGenerators := [];
    }

    /** Typing in the search box. */
    method SetSearchTerm(term: string)
      modifies this`searchTerm
      ensures searchTerm == term
    {
      searchTerm := term;
    }

    /** The effect run when the loaded generators or the term change. */
    method SearchEffect(generators: seq<Obj>)
      modifies this`filteredGenerators
      ensures filteredGenerators == Search(generators, searchTerm)
      ensures Subsequence(filteredGenerators, generators)
    {
      if Text.JsTrim(searchTerm) != "" {
        filteredGenerators := Filter(generators, searchTerm);
      } else {
        filteredGenerators := generators;
      }
    }
  }
}
