/** The name search of the client and product lists (pages/Clients.tsx,
    pages/Products.tsx): a row is shown when its lower-cased name contains the
    lower-cased search term. Rows are the JSON objects the data layer hands back. */
module NameSearch {
  import opened JsonValues
  import opened Strings
  import Seqs

  /** `row.name`; a row without a string name is read as the empty name. */
  function NameOf(row: Json): string
  {
    if row.JObj? && "name" in row.fields && row.fields["name"].JStr? then row.fields["name"].s else ""
  }

  predicate NameMatches(row: Json, term: string)
  {
    Contains(ToLower(NameOf(row)), ToLower(term))
  }

  /** `rows.filter(r => r.name.toLowerCase().includes(term.toLowerCase()))`: exactly the
      rows whose name contains the term, ignoring case. */
  function ByName(rows: seq<Json>, term: string): (r: seq<Json>)
    ensures |r| <= |rows|
    ensures forall x :: x in r <==> x in rows && NameMatches(x, term)
  {
    var r := Seqs.Filter(rows, x => NameMatches(x, term));
    forall x | x in rows && NameMatches(x, term) ensures x in r {
      Seqs.FilterKeepsAccepted(rows, x => NameMatches(x, term), x);
    }
    r
  }

  /** An empty search shows the whole list. */
  lemma EmptyTermShowsAll(rows: seq<Json>)
    ensures ByName(rows, "") == rows
  {
    forall i | 0 <= i < |rows| ensures NameMatches(rows[i], "") {
      ContainsEmpty(ToLower(NameOf(rows[i])));
    }
    Seqs.FilterAllPass(rows, x => NameMatches(x, ""));
  }

  /** The search keeps the list's order: searching two halves is searching each. */
  lemma ByNameKeepsOrder(a: seq<Json>, b: seq<Json>, term: string)
    ensures ByName(a + b, term) == ByName(a, term) + ByName(b, term)
  {
    Seqs.FilterAppend(a, b, x => NameMatches(x, term));
  }

  /** Typing the term in capitals finds the same rows. */
  lemma ByNameIgnoresCase(rows: seq<Json>, term: string)
    ensures ByName(rows, ToUpper(term)) == ByName(rows, term)
  {
    assert ToLower(ToUpper(term)) == ToLower(term);
    Seqs.FilterCongruent(rows, x => NameMatches(x, ToUpper(term)), x => NameMatches(x, term));
  }
}
