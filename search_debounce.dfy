/** The search box of `DeckSetting` (deck-setting.tsx): the raw input, the
    committed lower-case term, and the single cancellable timer that commits
    the input 300 ms after the last keystroke. Time is not modelled: the timer
    is the value it will commit, and its expiry is an explicit event. */
module SearchDebounce {
  import opened SeqFacts
  import opened DeckFilter

  datatype Search = Search(input: string, term: string, pending: Option<string>)

  const Initial: Search := Search("", "", None)

  /** `handleSearchChange(value)`: shows the input at once and replaces any
      armed timer by one that will commit `value`. */
  function Change(s: Search, value: string): (r: Search)
    ensures r.input == value && r.term == s.term && r.pending == Some(value)
  {
    Search(value, s.term, Some(value))
  }

  /** The armed timer expires: the term becomes the lower-cased input it was
      armed with. Without an armed timer nothing happens. */
  function Fire(s: Search): (r: Search)
    ensures r.input == s.input && r.pending == None
    ensures s.pending.None? ==> r == s
    ensures s.pending.Some? ==> r.term == Lower(s.pending.value)
  {
    match s.pending
    case None => s
    case Some(v) => Search(s.input, Lower(v), None)
  }

  /** Unmount: `clearTimeout` on the armed timer. */
  function Cancel(s: Search): (r: Search)
    ensures r.input == s.input && r.term == s.term && r.pending == None
  {
    s.(pending := None)
  }

  datatype Event = Typed(value: string) | TimerFired

  function Step(s: Search, e: Event): Search {
    match e
    case Typed(v) => Change(s, v)
    case TimerFired => Fire(s)
  }

  function Run(s: Search, events: seq<Event>): Search
    decreases |events|
  {
    if events == [] then s else Run(Step(s, events[0]), events[1..])
  }

  /** The terms committed along a run, in order: one per expiry of an armed timer. */
  function Commits(s: Search, events: seq<Event>): seq<string>
    decreases |events|
  {
    if events == [] then []
    else
      var here := if events[0].TimerFired? && s.pending.Some? then [Lower(s.pending.value)] else [];
      here + Commits(Step(s, events[0]), events[1..])
  }

  function Keystrokes(values: seq<string>): (r: seq<Event>)
    ensures |r| == |values|
    ensures forall i :: 0 <= i < |values| ==> r[i] == Typed(values[i])
  {
    seq(|values|, i requires 0 <= i < |values| => Typed(values[i]))
  }

  /** Keystrokes alone commit nothing; afterwards the input is the last value
      typed and exactly one commit is pending, holding that value. */
  lemma {:induction false} TypingCommitsNothing(s: Search, values: seq<string>)
    requires values != []
    ensures Commits(s, Keystrokes(values)) == []
    ensures Run(s, Keystrokes(values)) == Search(values[|values| - 1], s.term, Some(values[|values| - 1]))
    decreases |values|
  {
    var ev := Keystrokes(values);
    assert ev[1..] == Keystrokes(values[1..]);
    if |values| > 1 {
      TypingCommitsNothing(Change(s, values[0]), values[1..]);
    }
  }

  lemma {:induction false} RunAppend(s: Search, a: seq<Event>, b: seq<Event>)
    ensures Run(s, a + b) == Run(Run(s, a), b)
    ensures Commits(s, a + b) == Commits(s, a) + Commits(Run(s, a), b)
    decreases |a|
  {
    if a == [] {
      assert a + b == b;
    } else {
      assert (a + b)[1..] == a[1..] + b;
      RunAppend(Step(s, a[0]), a[1..], b);
    }
  }

  /** Trailing-edge debounce: a burst of keystrokes followed by one expiry
      commits exactly one term, the lower-cased last input; the earlier inputs
      are never committed. */
  lemma BurstCommitsLast(s: Search, values: seq<string>)
    requires values != []
    ensures Commits(s, Keystrokes(values) + [TimerFired]) == [Lower(values[|values| - 1])]
    ensures Run(s, Keystrokes(values) + [TimerFired])
         == Search(values[|values| - 1], Lower(values[|values| - 1]), None)
  {
    TypingCommitsNothing(s, values);
    RunAppend(s, Keystrokes(values), [TimerFired]);
  }

  /** After teardown the committed term never changes, however often a timer
      would have fired. */
  lemma {:induction false} CancelledStaysPut(s: Search, n: nat)
    ensures Run(Cancel(s), seq(n, _ => TimerFired)) == Cancel(s)
    ensures Commits(Cancel(s), seq(n, _ => TimerFired)) == []
  {
    if n > 0 {
      var ev := seq(n, _ => TimerFired);
      assert ev[1..] == seq(n - 1, _ => TimerFired);
      CancelledStaysPut(s, n - 1);
    }
  }

  /** The scenario "a", "ab", "abc" typed within the window: one commit, "abc". */
  lemma ThreeKeystrokes()
    ensures Commits(Initial, [Typed("a"), Typed("ab"), Typed("abc"), TimerFired]) == ["abc"]
  {
    assert Keystrokes(["a", "ab", "abc"]) == [Typed("a"), Typed("ab"), Typed("abc")];
    BurstCommitsLast(Initial, ["a", "ab", "abc"]);
    assert [Typed("a"), Typed("ab"), Typed("abc")] + [TimerFired]
        == [Typed("a"), Typed("ab"), Typed("abc"), TimerFired];
    assert Lower("abc") == "abc";
  }
}
