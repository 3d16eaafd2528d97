/**
 * The mock retriever of the client: a keyword gate over the query and a fixed
 * rendering of a three-entry knowledge base. The simulated network latency is
 * not part of the model.
 */
module RagService {
  import opened Types
  import opened Runtime

  /** The mocked knowledge base, in the order the retriever renders it. */
  const KnowledgeBase: seq<RagDocument> := [
    RagDocument(
      "CBM Exchange Rate Policy 2024",
      "The Central Bank of Myanmar (CBM) has set a reference rate range. Exporters are required to convert 35% of export earnings at the official rate within one day.",
      0.95),
    RagDocument(
      "Mobile Banking Limits",
      "KBZPay and Wave Money daily transaction limits have been updated to 1,000,000 MMK for Level 1 accounts to curb speculation.",
      0.88),
    RagDocument(
      "Gold Market Trends Yangon",
      "Yangon gold prices have fluctuated due to global spot prices and local currency volatility. Fire blocks are trading at a premium.",
      0.82)
  ]

  /** The keywords the gate looks for, all lower case. */
  const Keywords: seq<string> := ["rate", "bank", "money", "gold", "policy"]

  const Header := "CONTEXT FROM VECTOR DATABASE:\n"
  const Separator := "\n\n"

  /** The filter condition: the lower-cased query includes one of the keywords. */
  predicate MentionsKeyword(query: string)
  {
    var q := ToLower(query);
    Includes(q, "rate") || Includes(q, "bank") || Includes(q, "money")
      || Includes(q, "gold") || Includes(q, "policy")
  }

  /** `docs.filter(doc => MentionsKeyword(query))`: the condition never looks at `doc`. */
  function RelevantDocs(docs: seq<RagDocument>, query: string): (r: seq<RagDocument>)
    ensures MentionsKeyword(query) ==> r == docs
    ensures !MentionsKeyword(query) ==> r == []
  {
    if docs == [] then []
    else (if MentionsKeyword(query) then [docs[0]] else []) + RelevantDocs(docs[1..], query)
  }

  /** One knowledge-base entry as it appears in the context. */
  function Render(doc: RagDocument): string
  {
    "Source: " + doc.title + "\nContent: " + doc.content
  }

  function RenderAll(docs: seq<RagDocument>): (r: seq<string>)
    ensures |r| == |docs|
    ensures forall i :: 0 <= i < |docs| ==> r[i] == Render(docs[i])
  {
    if docs == [] then [] else [Render(docs[0])] + RenderAll(docs[1..])
  }

  /** `retrieveContext(query)`. */
  function RetrieveContext(query: string): (r: string)
    ensures r == "" <==> !MentionsKeyword(query)
    ensures r != "" ==> StartsWith(r, Header) && EndsWith(r, Separator)
    ensures r != "" ==> r == Header + Join(RenderAll(KnowledgeBase), Separator) + Separator
  {
    var relevant := RelevantDocs(KnowledgeBase, query);
    if |relevant| == 0 then ""
    else Header + Join(RenderAll(relevant), Separator) + Separator
  }

  /**
   * The whole context a matching query receives: a header, then each entry of the
   * knowledge base in order (CBM policy, mobile banking, gold), each followed by a
   * blank line.
   */
  const FullContext :=
    Header
    + Render(KnowledgeBase[0]) + Separator
    + Render(KnowledgeBase[1]) + Separator
    + Render(KnowledgeBase[2]) + Separator

  /** A query either gets nothing or exactly `FullContext`: all entries or none. */
  lemma AllOrNothing(query: string)
    ensures RetrieveContext(query) == "" || RetrieveContext(query) == FullContext
  {
    var a, b, c := Render(KnowledgeBase[0]), Render(KnowledgeBase[1]), Render(KnowledgeBase[2]);
    assert RenderAll(KnowledgeBase) == [a, b, c];
    ContextOfThree(Header, a, b, c, Separator);
  }

  lemma ContextOfThree(h: string, a: string, b: string, c: string, sep: string)
    ensures h + Join([a, b, c], sep) + sep == h + a + sep + b + sep + c + sep
  {
    assert [a, b, c][1..] == [b, c];
    assert [b, c][1..] == [c];
    assert Join([b, c], sep) == b + sep + c;
    assert Join([a, b, c], sep) == a + sep + (b + sep + c);
  }

  /** Matching looks only at the lower-cased query, so letter case never matters. */
  lemma CaseInsensitive(q1: string, q2: string)
    requires ToLower(q1) == ToLower(q2)
    ensures RetrieveContext(q1) == RetrieveContext(q2)
  {
  }

  /**
   * A keyword anywhere in the query, also inside a longer word and in any
   * letter case, opens the gate.
   */
  lemma {:induction false} KeywordOpensGate(before: string, word: string, after: string)
    requires ToLower(word) in Keywords
    ensures MentionsKeyword(before + word + after)
  {
    var k := ToLower(word);
    var q := ToLower(before + word + after);
    ToLowerAppend(before + word, after);
    ToLowerAppend(before, word);
    IncludedInMiddle(ToLower(before), k, ToLower(after));
    assert Includes(q, k);
    if k == "rate" {
    } else if k == "bank" {
    } else if k == "money" {
    } else if k == "gold" {
    } else {
      assert k == "policy";
    }
  }

  lemma IncludedInMiddle(a: string, k: string, b: string)
    ensures Includes(a + k + b, k)
  {
    var q := a + k + b;
    assert q[|a|..|a| + |k|] == k;
    assert OccursAt(q, k, |a|);
    IncludesIffOccurs(q, k);
  }

  /** Such a query receives the whole knowledge base. */
  lemma KeywordAnywhere(before: string, word: string, after: string)
    requires ToLower(word) in Keywords
    ensures RetrieveContext(before + word + after) == FullContext
  {
    KeywordOpensGate(before, word, after);
    AllOrNothing(before + word + after);
  }

  /** "Corporate" contains "rate", so a question about corporate matters retrieves the context. */
  lemma CorporateMatches()
    ensures RetrieveContext("Corporate outlook") == FullContext
  {
    assert "Corporate outlook" == "Corpo" + "rate" + " outlook";
    assert ToLower("rate") == "rate";
    KeywordAnywhere("Corpo", "rate", " outlook");
  }

  /** A query that names none of the keywords gets the empty string. */
  lemma NoKeywordNoContext(query: string)
    requires forall k :: k in Keywords ==> !exists i :: OccursAt(ToLower(query), k, i)
    ensures RetrieveContext(query) == ""
  {
    var q := ToLower(query);
    forall k | k in Keywords ensures !Includes(q, k) {
      IncludesIffOccurs(q, k);
    }
    assert "rate" in Keywords && "bank" in Keywords && "money" in Keywords;
    assert "gold" in Keywords && "policy" in Keywords;
  }
}
