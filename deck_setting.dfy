/** The `DeckSetting` component (deck-setting.tsx) as an object: the deck
    names, the search box, the target decks and the loading flag, with the
    handlers and effects as methods. The deck-name request to the flashcard
    service is an outside call; its outcome arrives as a parameter of
    `DeckNamesSettled`. React drops state updates of an unmounted component,
    so after `Unmount` the methods change nothing. */
module DeckSettingComponent {
  import opened SeqFacts
  import opened DeckFilter
  import opened TargetDecks
  import opened SearchDebounce

  datatype Result<T> = Ok(value: T) | Err(message: string)

  class DeckSetting {
    var decks: seq<string>
    var searchInput: string
    var searchTerm: string
    var targetDecks: seq<string>
    /** The armed timer of the search box: the value it will commit. */
    var pending: Option<string>
    var isLoading: bool
    /** The deck-name request has been issued and has not settled. */
    var loadInFlight: bool
    var mounted: bool

    function SearchState(): Search
      reads this
    {
      SearchDebounce.Search(searchInput, searchTerm, pending)
    }

    /** `filteredDecks`: depends on `decks` and the committed term only. */
    function FilteredDecks(): seq<string>
      reads this
    {
      Filtered(decks, searchTerm)
    }

    /** Mount: empty lists and search box, and the load effect issues the
        deck-name request with the loading flag up. */
    constructor ()
      ensures decks == [] && targetDecks == [] && SearchState() == Initial
      ensures isLoading && loadInFlight && mounted
    {
      decks, targetDecks := [], [];
      searchInput, searchTerm, pending := "", "", None;
      isLoading, loadInFlight, mounted := true, true, true;
    }

    /** The deck-name request settles: on success the names replace the deck
        list, on failure the list stays as it was; either way loading ends. */
    method DeckNamesSettled(outcome: Result<seq<string>>)
      modifies this
      ensures old(loadInFlight && mounted) ==>
                !isLoading && !loadInFlight
                && decks == (if outcome.Ok? then outcome.value else old(decks))
      ensures !old(loadInFlight && mounted) ==>
                isLoading == old(isLoading) && loadInFlight == old(loadInFlight) && decks == old(decks)
      ensures SearchState() == old(SearchState()) && targetDecks == old(targetDecks) && mounted == old(mounted)
    {
      if loadInFlight && mounted {
        if outcome.Ok? {
          decks := outcome.value;
        }
        isLoading, loadInFlight := false, false;
      }
    }

    /** `handleSearchChange`: the input shows at once; the previous timer is
        cancelled and a new one armed with this value. */
    method HandleSearchChange(value: string)
      modifies this
      ensures SearchState() == if old(mounted) then Change(old(SearchState()), value) else old(SearchState())
      ensures FilteredDecks() == old(FilteredDecks())
      ensures decks == old(decks) && targetDecks == old(targetDecks)
      ensures isLoading == old(isLoading) && loadInFlight == old(loadInFlight) && mounted == old(mounted)
    {
      if mounted {
        searchInput := value;
        pending := Some(value);
      }
    }

    /** The armed timer expires and commits the lower-cased value it was armed with. */
    method TimerFired()
      modifies this
      ensures SearchState() == Fire(old(SearchState()))
      ensures old(pending).Some? ==> searchTerm == Lower(old(pending).value)
      ensures old(pending).None? ==> searchTerm == old(searchTerm)
      ensures decks == old(decks) && targetDecks == old(targetDecks)
      ensures isLoading == old(isLoading) && loadInFlight == old(loadInFlight) && mounted == old(mounted)
    {
      if pending.Some? {
        searchTerm := Lower(pending.value);
        pending := None;
      }
    }

    /** The unmount cleanup: the armed timer, if any, is cleared. */
    method Unmount()
      modifies this
      ensures !mounted && SearchState() == Cancel(old(SearchState()))
      ensures decks == old(decks) && targetDecks == old(targetDecks)
      ensures isLoading == old(isLoading) && loadInFlight == old(loadInFlight)
    {
      pending := None;
      mounted := false;
    }

    /** `handleToggleStudy(name)`, with the source's own membership test: for
        every non-empty name the membership flips and a duplicate-free list
        stays duplicate-free; the empty name is always appended. */
    method HandleToggleStudy(name: string)
      modifies this
      ensures targetDecks == if old(mounted) then ToggleAsWritten(old(targetDecks), name) else old(targetDecks)
      ensures old(mounted) && name != "" ==> (name in targetDecks <==> name !in old(targetDecks))
      ensures name != "" && NoDup(old(targetDecks)) ==> NoDup(targetDecks)
      ensures decks == old(decks) && SearchState() == old(SearchState())
      ensures isLoading == old(isLoading) && loadInFlight == old(loadInFlight) && mounted == old(mounted)
    {
      if mounted {
        targetDecks := ToggleAsWritten(targetDecks, name);
      }
    }

    /** Whether the deck's row is shown as studied: the same test as the
        toggle's, so a target named "" is shown as not studied. */
    method IsStudyingNow(name: string) returns (studying: bool)
      ensures studying <==> name in targetDecks && name != ""
    {
      studying := IsStudyingAsWritten(targetDecks, name);
    }
  }

  /** Typing "a", "ab", "abc" quickly, then the timer: one commit, "abc", and
      only then does the filtered list change. Unmount freezes the term. */
  method SearchScenario()
  {
    var d := new DeckSetting();
    d.DeckNamesSettled(Ok(["Default", "Spanish", "Abc::Basics"]));
    assert !d.isLoading;
    d.HandleSearchChange("a");
    d.HandleSearchChange("ab");
    d.HandleSearchChange("ABC");
    assert d.FilteredDecks() == d.decks;
    d.TimerFired();
    assert d.searchTerm == "abc";
    d.HandleSearchChange("x");
    d.Unmount();
    d.TimerFired();
    assert d.searchTerm == "abc";
  }

  /** A failed request leaves the deck list empty and ends loading. */
  method FailedLoadScenario()
  {
    var d := new DeckSetting();
    d.DeckNamesSettled(Err("connection refused"));
    assert d.decks == [] && !d.isLoading;
    d.HandleToggleStudy("Spanish");
    d.HandleToggleStudy("Default");
    d.HandleToggleStudy("Spanish");
    assert d.targetDecks == ["Default"];
  }
}
