/**
 * The help page's question list (frontend/src/pages/FAQ.tsx): the questions
 * shown for a search term and a category chip. The page's own list of twelve
 * questions is constant data; here the list is a parameter.
 */
module Faq {
  import Seqs
  import Text

  /** The chip that disables the category filter. */
  const AllCategories := "all"

  /** The chips: `all` and the five categories the questions are filed under. */
  const Categories := [AllCategories, "orders", "payments", "shipping", "returns", "account"]

  const NoMatchMessage := "No FAQs found matching your search."

  datatype Entry = Entry(id: int, category: string, question: string, answer: string)

  /** `matchesSearch`: the question or the answer contains the term, both lower-cased. */
  predicate MatchesSearch(faq: Entry, searchTerm: string)
  {
    Text.Contains(Text.ToLower(faq.question), Text.ToLower(searchTerm)) ||
    Text.Contains(Text.ToLower(faq.answer), Text.ToLower(searchTerm))
  }

  /** `matchesCategory`: the `all` chip, or the entry's own category. */
  predicate MatchesCategory(faq: Entry, selectedCategory: string)
  {
    selectedCategory == AllCategories || faq.category == selectedCategory
  }

  function Shown(searchTerm: string, selectedCategory: string): Entry -> bool
  {
    (faq: Entry) => MatchesSearch(faq, searchTerm) && MatchesCategory(faq, selectedCategory)
  }

  /** filteredFAQs: the entries matching both the search term and the category, in list order. */
  function Filtered(faqs: seq<Entry>, searchTerm: string, selectedCategory: string): (r: seq<Entry>)
    ensures Seqs.IsSubsequence(r, faqs)
    ensures forall i :: 0 <= i < |r| ==> MatchesSearch(r[i], searchTerm) && MatchesCategory(r[i], selectedCategory)
    ensures forall i :: 0 <= i < |faqs| && MatchesSearch(faqs[i], searchTerm) && MatchesCategory(faqs[i], selectedCategory) ==>
      faqs[i] in r
  {
    var r := Seqs.Filter(faqs, Shown(searchTerm, selectedCategory));
    Seqs.FilterSubsequence(faqs, Shown(searchTerm, selectedCategory));
    assert forall i :: 0 <= i < |r| ==> Shown(searchTerm, selectedCategory)(r[i]);
    r
  }

  /** An entry is shown exactly when it is listed and matches both filters. */
  lemma ShownIff(faqs: seq<Entry>, searchTerm: string, selectedCategory: string, faq: Entry)
    ensures faq in Filtered(faqs, searchTerm, selectedCategory) <==>
      faq in faqs && MatchesSearch(faq, searchTerm) && MatchesCategory(faq, selectedCategory)
  {
    var r := Filtered(faqs, searchTerm, selectedCategory);
    if faq in r {
      var i :| 0 <= i < |r| && r[i] == faq;
      SubsequenceMembers(r, faqs, i);
    }
  }

  /** Every member of a subsequence is a member of the whole list. */
  lemma {:induction false} SubsequenceMembers(a: seq<Entry>, b: seq<Entry>, i: int)
    requires Seqs.IsSubsequence(a, b) && 0 <= i < |a|
    ensures a[i] in b
    decreases |b|
  {
    if a[0] == b[0] && Seqs.IsSubsequence(a[1..], b[1..]) {
      if i > 0 {
        SubsequenceMembers(a[1..], b[1..], i - 1);
      }
    } else {
      SubsequenceMembers(a, b[1..], i);
    }
  }

  /** Every string contains the empty string. */
  lemma ContainsEmpty(s: string)
    ensures Text.Contains(s, "")
  {
  }

  /** The page as it opens, with no term and the `all` chip, lists every entry. */
  lemma {:induction false} NoFilterKeepsAll(faqs: seq<Entry>)
    ensures Filtered(faqs, "", AllCategories) == faqs
  {
    forall i | 0 <= i < |faqs| ensures Shown("", AllCategories)(faqs[i]) {
      ContainsEmpty(Text.ToLower(faqs[i].question));
    }
    Seqs.FilterAll(faqs, Shown("", AllCategories));
  }

  /** A category chip keeps only entries of that category. */
  lemma CategoryChipNarrows(faqs: seq<Entry>, searchTerm: string, category: string)
    requires category != AllCategories
    ensures forall i :: 0 <= i < |Filtered(faqs, searchTerm, category)| ==>
      Filtered(faqs, searchTerm, category)[i].category == category
  {
  }

  /** The message under the list: shown exactly when nothing matches. */
  function Message(faqs: seq<Entry>, searchTerm: string, selectedCategory: string): (m: string)
    ensures m == NoMatchMessage <==>
      forall i :: 0 <= i < |faqs| ==> !(MatchesSearch(faqs[i], searchTerm) && MatchesCategory(faqs[i], selectedCategory))
  {
    var r := Filtered(faqs, searchTerm, selectedCategory);
    if |r| == 0 then NoMatchMessage else ""
  }
}
