/** The `filteredDecks` memo of `DeckSetting` (deck-setting.tsx): the deck
    names whose lower-cased form contains the committed search term, in their
    original order; every deck when the term is empty. Lower-casing is ASCII. */
module DeckFilter {
  import opened SeqFacts

  function LowerChar(c: char): char {
    if 'A' <= c <= 'Z' then (c as int + 32) as char else c
  }

  /** `toLowerCase`, restricted to ASCII letters. */
  function Lower(s: string): (r: string)
    ensures |r| == |s|
    ensures forall i :: 0 <= i < |s| ==> r[i] == LowerChar(s[i])
    ensures forall i :: 0 <= i < |r| ==> !('A' <= r[i] <= 'Z')
  {
    seq(|s|, i requires 0 <= i < |s| => LowerChar(s[i]))
  }

  /** `needle` occurs in `hay` starting at index `i`. */
  predicate OccursAt(hay: string, needle: string, i: int) {
    0 <= i && i + |needle| <= |hay| && hay[i..i + |needle|] == needle
  }

  /** `String.prototype.includes`, by scanning each start position. */
  function Includes(hay: string, needle: string): (r: bool)
    ensures r <==> exists i :: OccursAt(hay, needle, i)
    decreases |hay|
  {
    if |needle| > |hay| then false
    else if hay[..|needle|] == needle then
      assert OccursAt(hay, needle, 0);
      true
    else
      var rest := Includes(hay[1..], needle);
      assert forall i :: OccursAt(hay[1..], needle, i) ==> OccursAt(hay, needle, i + 1) by {
        forall i | OccursAt(hay[1..], needle, i) ensures OccursAt(hay, needle, i + 1) {
          assert hay[1..][i..i + |needle|] == hay[i + 1..i + 1 + |needle|];
        }
      }
      assert forall i :: OccursAt(hay, needle, i) && i > 0 ==> OccursAt(hay[1..], needle, i - 1) by {
        forall i | OccursAt(hay, needle, i) && i > 0 ensures OccursAt(hay[1..], needle, i - 1) {
          assert hay[1..][i - 1..i - 1 + |needle|] == hay[i..i + |needle|];
        }
      }
      rest
  }

  /** The per-deck test: `deck.toLowerCase().includes(term)`. */
  predicate Matches(deck: string, term: string) {
    Includes(Lower(deck), term)
  }

  /** `decks.filter(deck => Matches(deck, term))`. */
  function KeepMatching(decks: seq<string>, term: string): (r: seq<string>)
    ensures forall d :: d in r <==> d in decks && Matches(d, term)
    ensures forall d :: multiset(r)[d] == if Matches(d, term) then multiset(decks)[d] else 0
    ensures IsSubsequence(r, decks)
    decreases |decks|
  {
    if decks == [] then []
    else
      var rest := KeepMatching(decks[1..], term);
      assert decks == [decks[0]] + decks[1..];
      if Matches(decks[0], term) then
        SubsequenceCons(decks[0], rest, decks[1..]);
        [decks[0]] + rest
      else
        SubsequenceSkip(decks[0], rest, decks[1..]);
        rest
  }

  /** The `filteredDecks` memo: the committed term is lower-case already. */
  function Filtered(decks: seq<string>, searchTerm: string): (r: seq<string>)
    ensures searchTerm == "" ==> r == decks
    ensures forall d :: d in r <==> d in decks && Matches(d, searchTerm)
    ensures forall d :: multiset(r)[d] == if Matches(d, searchTerm) then multiset(decks)[d] else 0
    ensures IsSubsequence(r, decks)
  {
    if searchTerm == "" then
      forall d ensures Matches(d, searchTerm) {
        assert OccursAt(Lower(d), searchTerm, 0);
      }
      SubsequenceRefl(decks);
      decks
    else KeepMatching(decks, searchTerm)
  }

  lemma {:induction false} SubsequenceRefl(s: seq<string>)
    ensures IsSubsequence(s, s)
    decreases |s|
  {
    if s != [] {
      SubsequenceRefl(s[1..]);
    }
  }

  /** The filter is case-insensitive: a typed term, once committed, selects a
      deck exactly when the deck's name contains it ignoring letter case. */
  lemma CaseInsensitive(decks: seq<string>, typed: string, d: string)
    ensures d in Filtered(decks, Lower(typed)) <==> d in decks && Includes(Lower(d), Lower(typed))
  {
  }

  /** Filtering by a term already in use changes nothing. */
  lemma FilterIdempotent(decks: seq<string>, term: string)
    ensures Filtered(Filtered(decks, term), term) == Filtered(decks, term)
  {
    var r := Filtered(decks, term);
    if term != "" {
      KeepAllMatching(r, term);
    }
  }

  lemma {:induction false} KeepAllMatching(decks: seq<string>, term: string)
    requires forall d :: d in decks ==> Matches(d, term)
    ensures KeepMatching(decks, term) == decks
    decreases |decks|
  {
    if decks != [] {
      KeepAllMatching(decks[1..], term);
    }
  }
}
