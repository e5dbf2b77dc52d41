/** `searchWikipedia` in server.js:344-364: the search term is the question with
    four lead-in phrases removed, and an answer is the page extract followed by a
    source line. The HTTP exchange itself is an input (`WikiResponse`). */
module Wikipedia {
  import opened Wrappers
  import opened Text

  /** The alternatives of `/what is |who is |explain |tell me about /gi`, in order. */
  const Phrases: seq<string> := ["what is ", "who is ", "explain ", "tell me about "]

  const SourceLine := "\n\nSource: Wikipedia"

  /** Phrase `p` matches, ignoring ASCII case, at the start of `s`. */
  predicate PhraseAt(s: string, p: string) {
    |p| <= |s| && ToLower(s[..|p|]) == p
  }

  /** The alternative the regular expression takes at the start of `s`: the
      first that matches. */
  function PhraseMatch(s: string): (r: Option<string>)
    ensures r.Some? ==> r.value in Phrases && PhraseAt(s, r.value)
    ensures r.None? ==> forall p :: p in Phrases ==> !PhraseAt(s, p)
  {
    if PhraseAt(s, Phrases[0]) then Some(Phrases[0])
    else if PhraseAt(s, Phrases[1]) then Some(Phrases[1])
    else if PhraseAt(s, Phrases[2]) then Some(Phrases[2])
    else if PhraseAt(s, Phrases[3]) then Some(Phrases[3])
    else None
  }

  /** The global replace, scanning left to right over what is left of the
      text: a match is dropped and the scan resumes after it; any other
      character is kept. */
  function Strip(s: string): (r: string)
    ensures |r| <= |s|
    decreases |s|
  {
    if s == [] then []
    else match PhraseMatch(s)
      case Some(p) => Strip(s[|p|..])
      case None => [s[0]] + Strip(s[1..])
  }

  /** The term looked up: phrases removed, then trimmed. */
  function SearchTerm(question: string): (r: string)
    ensures |r| <= |question|
    ensures r == [] || (!IsSpace(r[0]) && !IsSpace(r[|r| - 1]))
  {
    Trim(Strip(question))
  }

  lemma PhraseEndsInSpace(s: string, p: string)
    requires p in Phrases
    ensures PhraseAt(s, p) ==> s[|p| - 1] == ' '
  {
    if PhraseAt(s, p) {
      var k := |p| - 1;
      assert ToLower(s[..|p|])[k] == LowerChar(s[k]);
    }
  }

  lemma PhraseCharAt(s: string, q: string, j: nat)
    ensures PhraseAt(s, q) && j < |q| ==> LowerChar(s[j]) == q[j]
  {
    if PhraseAt(s, q) && j < |q| {
      assert ToLower(s[..|q|])[j] == LowerChar(s[j]);
    }
  }

  /** Every phrase ends in a space, so text without spaces passes through untouched. */
  lemma {:induction false} NoSpaceUnchanged(s: string)
    requires forall j :: 0 <= j < |s| ==> s[j] != ' '
    ensures Strip(s) == s
    decreases |s|
  {
    if s != [] {
      forall p | p in Phrases ensures !PhraseAt(s, p) {
        PhraseEndsInSpace(s, p);
      }
      NoSpaceUnchanged(s[1..]);
      assert s == [s[0]] + s[1..];
    }
  }

  /** The scan takes a leading phrase, in any letter case, as the phrase itself:
      no earlier alternative matches there. */
  lemma LeadingPhraseMatches(lead: string, rest: string)
    requires ToLower(lead) in Phrases
    ensures PhraseMatch(lead + rest) == Some(ToLower(lead))
  {
    var s := lead + rest;
    var p := ToLower(lead);
    assert s[..|lead|] == lead;
    assert PhraseAt(s, p);
    forall q | q in Phrases && q != p ensures !PhraseAt(s, q) {
      // "what is " and "who is " differ at offset 2; every other pair at offset 0.
      var j := if q[0] == p[0] then 2 else 0;
      assert q[j] != p[j];
      assert ToLower(s[..|p|])[j] == LowerChar(s[j]);
      PhraseCharAt(s, q, j);
    }
  }

  /** A question that opens with one of the phrases, in any letter case, is looked
      up as the rest of the question. */
  lemma LeadingPhraseDropped(lead: string, rest: string)
    requires ToLower(lead) in Phrases
    ensures SearchTerm(lead + rest) == SearchTerm(rest)
  {
    LeadingPhraseMatches(lead, rest);
    assert (lead + rest)[|lead|..] == rest;
  }

  /** A question made of a lead-in phrase and one word is looked up as that word. */
  lemma LeadingPhraseThenWord(lead: string, word: string)
    requires ToLower(lead) in Phrases
    requires word != [] && !IsSpace(word[0]) && !IsSpace(word[|word| - 1])
    requires forall j :: 0 <= j < |word| ==> word[j] != ' '
    ensures SearchTerm(lead + word) == word
  {
    LeadingPhraseDropped(lead, word);
    NoSpaceUnchanged(word);
    TrimKeeps(word);
  }

  /** No phrase reads, after a stretch of letters without a space, the first
      two letters of a phrase: where a phrase's first word ends, its next
      character is a space. */
  lemma PhraseNotAcrossWord(q: string, p: string, n: nat)
    requires q in Phrases && p in Phrases
    requires 1 <= n < |q|
    requires forall j :: 0 <= j < n ==> q[j] != ' '
    ensures q[n] != p[0] || (n + 1 < |q| && q[n + 1] != p[1])
  {
    if q == Phrases[0] {
      assert q[4] == ' ';
    } else if q == Phrases[1] {
      assert q[3] == ' ';
    } else if q == Phrases[2] {
      assert q[7] == ' ';
    } else {
      assert q[4] == ' ';
    }
  }

  /** A phrase cannot start inside a word that runs up to a phrase. */
  lemma NoPhraseInsideWord(u: string, t: string, p: string)
    requires u != [] && forall j :: 0 <= j < |u| ==> u[j] != ' '
    requires p in Phrases && PhraseAt(t, p)
    ensures PhraseMatch(u + t) == None
  {
    var s := u + t;
    var n := |u|;
    forall q | q in Phrases ensures !PhraseAt(s, q) {
      if PhraseAt(s, q) {
        PhraseStopsAtWord(u, t, q);
        PhraseCharAt(s, q, n);
        PhraseCharAt(t, p, 0);
        assert s[n] == t[0];
        if n + 1 < |q| {
          PhraseCharAt(s, q, n + 1);
          PhraseCharAt(t, p, 1);
          assert s[n + 1] == t[1];
        }
        PhraseNotAcrossWord(q, p, n);
      }
    }
  }

  /** A phrase matched at the start of a word that has no space ends past it,
      and reads no space before the word ends. */
  lemma PhraseStopsAtWord(u: string, t: string, q: string)
    requires forall j :: 0 <= j < |u| ==> u[j] != ' '
    requires q in Phrases && PhraseAt(u + t, q)
    ensures |u| < |q| && forall j :: 0 <= j < |u| ==> q[j] != ' '
  {
    var s := u + t;
    forall j | 0 <= j < |u| && j < |q| ensures q[j] != ' ' {
      PhraseCharAt(s, q, j);
      assert s[j] == u[j];
    }
    PhraseEndsInSpace(s, q);
  }

  /** A leading phrase, in any letter case, is removed by the scan. */
  lemma LeadingPhraseStripped(p: string, b: string)
    requires ToLower(p) in Phrases
    ensures Strip(p + b) == Strip(b)
  {
    LeadingPhraseMatches(p, b);
    assert (p + b)[|p|..] == b;
  }

  /** A character with no phrase at it is kept by the scan. */
  lemma WordCharKept(a: string, t: string, p: string)
    requires a != [] && forall j :: 0 <= j < |a| ==> a[j] != ' '
    requires p in Phrases && PhraseAt(t, p)
    ensures Strip(a + t) == [a[0]] + Strip(a[1..] + t)
  {
    NoPhraseInsideWord(a, t, p);
    var s := a + t;
    StripKeepsHead(s);
    assert s[1..] == a[1..] + t;
  }

  /** Where no phrase matches, the scan keeps the first character. */
  lemma StripKeepsHead(s: string)
    requires s != [] && PhraseMatch(s) == None
    ensures Strip(s) == [s[0]] + Strip(s[1..])
  {
  }

  /** A word with no space in front of a phrase is kept whole by the scan. */
  lemma {:induction false} WordBeforePhraseKept(a: string, t: string, q: string)
    requires forall j :: 0 <= j < |a| ==> a[j] != ' '
    requires q in Phrases && PhraseAt(t, q)
    ensures Strip(a + t) == a + Strip(t)
    decreases |a|
  {
    if a == [] {
      assert a + t == t;
    } else {
      WordCharKept(a, t, q);
      WordBeforePhraseKept(a[1..], t, q);
      ConsHead(a, Strip(t), Strip(a + t), Strip(a[1..] + t));
    }
  }

  /** Putting back the first character of a word in front of its tail. */
  lemma ConsHead(a: string, tail: string, x: string, y: string)
    requires a != []
    requires y == a[1..] + tail && x == [a[0]] + y
    ensures x == a + tail
  {
    assert a == [a[0]] + a[1..];
  }

  /** A phrase that follows a word is dropped and the word is kept. */
  lemma PhraseAfterWordDropped(a: string, p: string, b: string)
    requires forall j :: 0 <= j < |a| ==> a[j] != ' '
    requires ToLower(p) in Phrases
    ensures Strip(a + p + b) == a + Strip(b)
  {
    var t := p + b;
    assert t[..|p|] == p;
    WordBeforePhraseKept(a, t, ToLower(p));
    LeadingPhraseStripped(p, b);
    assert a + p + b == a + t;
  }

  /** What the summary endpoint answered; `Unreachable` is a rejected `fetch`
      or an unreadable body, which `searchWikipedia` lets propagate. */
  datatype WikiResponse =
    | Unreachable(message: string)
    | NotOk
    | Summary(extract: Option<string>)

  /** The value `searchWikipedia` resolves to (`Some` for a string, `None` for
      `null`), or the error it rejects with. */
  function WikiAnswer(response: WikiResponse): (r: Result<Option<string>, string>)
    ensures r.Failure? <==> response.Unreachable?
    ensures r == Success(None) <==>
      response.NotOk? || (response.Summary? && (response.extract == None || response.extract == Some("")))
    ensures r.Success? && r.value.Some? ==>
      response.Summary? && response.extract.Some?
      && |r.value.value| > |SourceLine|
      && r.value.value[..|r.value.value| - |SourceLine|] == response.extract.value
      && r.value.value[|r.value.value| - |SourceLine|..] == SourceLine
  {
    match response
    case Unreachable(message) => Failure(message)
    case NotOk => Success(None)
    case Summary(extract) =>
      if extract.Some? && extract.value != "" then Success(Some(extract.value + SourceLine))
      else Success(None)
  }
}
