/** The list built by `handleToggleStudy` (deck-setting.tsx): toggling a deck
    name removes every occurrence of it from the target list when it is being
    studied, and appends it otherwise. */
module TargetDecks {
  import opened SeqFacts

  /** `prev.filter(item => item !== name)`. */
  function Without(s: seq<string>, name: string): (r: seq<string>)
    ensures name !in r
    ensures forall x :: x != name ==> multiset(r)[x] == multiset(s)[x]
    ensures IsSubsequence(r, s)
    ensures name !in s ==> r == s
    decreases |s|
  {
    if s == [] then []
    else
      var rest := Without(s[1..], name);
      assert s == [s[0]] + s[1..];
      if s[0] != name then
        SubsequenceCons(s[0], rest, s[1..]);
        [s[0]] + rest
      else
        SubsequenceSkip(s[0], rest, s[1..]);
        rest
  }

  /** Removing a name keeps a duplicate-free list duplicate-free. */
  lemma {:induction false} WithoutNoDup(s: seq<string>, name: string)
    requires NoDup(s)
    ensures NoDup(Without(s, name))
    decreases |s|
  {
    if s != [] {
      NoDupTail(s);
      WithoutNoDup(s[1..], name);
      var rest := Without(s[1..], name);
      if s[0] != name {
        assert s[0] !in rest by {
          assert multiset(rest)[s[0]] == multiset(s[1..])[s[0]] == 0;
        }
        NoDupCons(s[0], rest);
      }
    }
  }

  /** The membership test of the corrected toggle. */
  predicate IsStudying(targets: seq<string>, name: string) {
    name in targets
  }

  /** The corrected toggle: remove when present, append when absent. */
  function Toggle(targets: seq<string>, name: string): (r: seq<string>)
    ensures name in r <==> name !in targets
    ensures forall x :: x != name ==> multiset(r)[x] == multiset(targets)[x]
    ensures name !in targets ==> r == targets + [name]
    ensures name in targets ==> IsSubsequence(r, targets) && |r| < |targets|
    ensures NoDup(targets) ==> NoDup(r)
  {
    if IsStudying(targets, name) then
      var r := Without(targets, name);
      MultisetShrinks(r, targets, name);
      WithoutNoDupIf(targets, name);
      r
    else
      var r := targets + [name];
      assert multiset(r) == multiset(targets) + multiset{name};
      AppendNoDup(targets, name);
      r
  }

  lemma WithoutNoDupIf(s: seq<string>, name: string)
    ensures NoDup(s) ==> NoDup(Without(s, name))
  {
    if NoDup(s) {
      WithoutNoDup(s, name);
    }
  }

  lemma AppendNoDup(s: seq<string>, name: string)
    requires name !in s
    ensures NoDup(s) ==> NoDup(s + [name])
  {
    var r := s + [name];
    if NoDup(s) {
      forall i, j | 0 <= i < j < |r| ensures r[i] != r[j] {
        if j == |s| {
          assert r[i] == s[i];
        }
      }
    }
  }

  lemma MultisetShrinks(r: seq<string>, s: seq<string>, name: string)
    requires forall x :: x != name ==> multiset(r)[x] == multiset(s)[x]
    requires name !in r && name in s
    ensures |r| < |s|
  {
    var ms := multiset(s)[name := 0];
    assert multiset(r) == ms;
    assert |multiset(s)| == |ms| + multiset(s)[name];
  }

  /** Toggling any deck changes no other deck's membership. */
  lemma ToggleKeepsOthers(targets: seq<string>, name: string, other: string)
    requires other != name
    ensures other in Toggle(targets, name) <==> other in targets
  {
    var r := Toggle(targets, name);
    assert multiset(r)[other] == multiset(targets)[other];
  }

  /** Toggling an absent deck twice gives back the list it started from. */
  lemma ToggleTwiceFromAbsent(targets: seq<string>, name: string)
    requires name !in targets
    ensures Toggle(Toggle(targets, name), name) == targets
  {
    WithoutAppend(targets, name);
  }

  lemma {:induction false} WithoutAppend(s: seq<string>, name: string)
    requires name !in s
    ensures Without(s + [name], name) == s
    decreases |s|
  {
    if s == [] {
      assert [] + [name] == [name];
      assert [name][1..] == [];
    } else {
      assert (s + [name])[1..] == s[1..] + [name];
      WithoutAppend(s[1..], name);
      assert s == [s[0]] + s[1..];
    }
  }

  /** `n` toggles of one deck in a row. */
  function ToggleTimes(targets: seq<string>, name: string, n: nat): seq<string> {
    if n == 0 then targets else Toggle(ToggleTimes(targets, name, n - 1), name)
  }

  /** Starting from a list without the deck, the deck is present after `n`
      toggles exactly when `n` is odd; the list never holds a duplicate if it
      did not start with one, and no other deck's membership changes. */
  lemma {:induction false} ToggleParity(targets: seq<string>, name: string, n: nat)
    requires name !in targets
    ensures name in ToggleTimes(targets, name, n) <==> n % 2 == 1
    ensures NoDup(targets) ==> NoDup(ToggleTimes(targets, name, n))
    ensures forall x :: x != name ==> multiset(ToggleTimes(targets, name, n))[x] == multiset(targets)[x]
  {
    if n > 0 {
      ToggleParity(targets, name, n - 1);
    }
  }

  // ---------------------------------------------------------------------
  // The toggle as written

  /** `Array.prototype.find(item => item === name)`: the first element equal
      to `name`, or `undefined` (None) when there is none. */
  function Find(s: seq<string>, name: string): (r: Option<string>)
    ensures r == Some(name) <==> name in s
    ensures r.None? <==> name !in s
    decreases |s|
  {
    if s == [] then None
    else if s[0] == name then Some(s[0])
    else
      assert s == [s[0]] + s[1..];
      Find(s[1..], name)
  }

  /** JavaScript truthiness of a string: only the empty string is falsy. */
  predicate Truthy(s: string) {
    s != ""
  }

  /** The source's "is studying" test: false for an empty list, otherwise
      `!!targets.find(item => item === name)`, the truthiness of the found
      item. (The `!targetDecks` guard never holds for an array.) The empty
      name is falsy, so it never counts as studied. */
  predicate IsStudyingAsWritten(targets: seq<string>, name: string)
    ensures IsStudyingAsWritten(targets, name) <==> name in targets && name != ""
  {
    if |targets| == 0 then false
    else
      match Find(targets, name)
      case None => false
      case Some(item) => Truthy(item)
  }

  function ToggleAsWritten(targets: seq<string>, name: string): (r: seq<string>)
    ensures name != "" ==> r == Toggle(targets, name)
    ensures name == "" ==> r == targets + [name]
  {
    if IsStudyingAsWritten(targets, name) then Without(targets, name) else targets + [name]
  }

  /** The discrepancy: toggling the empty deck name when it is already a
      target appends a second copy instead of removing it. */
  lemma EmptyNameDuplicates()
    ensures var r := ToggleAsWritten([""], "");
      r == ["", ""] && !NoDup(r)
  {
    var r := ToggleAsWritten([""], "");
    assert r[0] == r[1];
  }
}
