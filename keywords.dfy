/** The first-match keyword scan both knowledge bases use:
    `knowledgeBase.find(entry => entry.match.some(keyword => lower.includes(keyword)))`. */
module Keywords {
  import opened Wrappers
  import opened Text

  /** One knowledge-base row: its keywords, in order, and the answer it gives. */
  datatype Entry = Entry(keywords: seq<string>, answer: string)

  /** `some` scanning the keyword list from position `i`. */
  predicate AnyKeywordFrom(lower: string, keywords: seq<string>, i: nat)
    decreases |keywords| - i
  {
    i < |keywords| && (Contains(lower, keywords[i]) || AnyKeywordFrom(lower, keywords, i + 1))
  }

  /** `entry.match.some(keyword => lower.includes(keyword))`. */
  predicate AnyKeyword(lower: string, keywords: seq<string>) {
    AnyKeywordFrom(lower, keywords, 0)
  }

  lemma {:induction false} AnyKeywordFromIff(lower: string, keywords: seq<string>, i: nat)
    ensures AnyKeywordFrom(lower, keywords, i) <==>
      exists j :: i <= j < |keywords| && Contains(lower, keywords[j])
    decreases |keywords| - i
  {
    if i < |keywords| {
      AnyKeywordFromIff(lower, keywords, i + 1);
    }
  }

  /** The scan finds a keyword exactly when some keyword of the row occurs in `lower`. */
  lemma AnyKeywordIff(lower: string, keywords: seq<string>)
    ensures AnyKeyword(lower, keywords) <==> exists k :: k in keywords && Contains(lower, k)
  {
    AnyKeywordFromIff(lower, keywords, 0);
    if exists k :: k in keywords && Contains(lower, k) {
      var k :| k in keywords && Contains(lower, k);
      var j :| 0 <= j < |keywords| && keywords[j] == k;
      assert Contains(lower, keywords[j]);
    }
  }

  /** The index `find` stops at, scanning from row `i`. */
  function FirstMatchFrom(table: seq<Entry>, lower: string, i: nat): (r: Option<nat>)
    requires i <= |table|
    ensures r.Some? ==>
      i <= r.value < |table| && AnyKeyword(lower, table[r.value].keywords)
      && forall j :: i <= j < r.value ==> !AnyKeyword(lower, table[j].keywords)
    ensures r.None? ==> forall j :: i <= j < |table| ==> !AnyKeyword(lower, table[j].keywords)
    decreases |table| - i
  {
    if i == |table| then None
    else if AnyKeyword(lower, table[i].keywords) then Some(i)
    else FirstMatchFrom(table, lower, i + 1)
  }

  /** The earliest row with any keyword in `lower`, or None when no row has one. */
  function FirstMatch(table: seq<Entry>, lower: string): (r: Option<nat>)
    ensures r.Some? ==>
      r.value < |table| && AnyKeyword(lower, table[r.value].keywords)
      && forall j :: 0 <= j < r.value ==> !AnyKeyword(lower, table[j].keywords)
    ensures r.None? <==> forall j :: 0 <= j < |table| ==> !AnyKeyword(lower, table[j].keywords)
  {
    FirstMatchFrom(table, lower, 0)
  }
}
