/**
  The presentation page: a slide navigator over the state
  `(currentSlide, isPlaying, showNotes)`, driven by the keyboard, the header and
  footer buttons, the slide dots and the auto-play interval.

  Each input is an `Event`; `Step` is the page's transition function and
  `PresentationPage` holds the three state fields and updates them in place.
 */
module Presentation {

  /** The number of slides in the deck. */
  const SlideCount: nat := 10

  /** `Math.min(prev + 1, slides.length - 1)`. */
  function NextIndex(prev: int): (r: int)
    ensures r <= SlideCount - 1
    ensures prev < SlideCount - 1 ==> r == prev + 1
    ensures prev >= SlideCount - 1 ==> r == SlideCount - 1
  {
    if prev + 1 <= SlideCount - 1 then prev + 1 else SlideCount - 1
  }

  /** `Math.max(prev - 1, 0)`. */
  function PrevIndex(prev: int): (r: int)
    ensures r >= 0
    ensures prev > 0 ==> r == prev - 1
    ensures prev <= 0 ==> r == 0
  {
    if prev - 1 >= 0 then prev - 1 else 0
  }

  datatype PageState = PageState(currentSlide: int, isPlaying: bool, showNotes: bool)

  /** The slide index names a slide of the deck. */
  predicate InRange(s: PageState)
  {
    0 <= s.currentSlide < SlideCount
  }

  /** The state the page mounts with: first slide, notes shown, auto-play off. */
  const Initial: PageState := PageState(0, false, true)

  /** The inputs the page reacts to; `Dot(i)` is a click on the `i`-th slide dot. */
  datatype Event =
    | KeyDown(key: string)
    | Tick
    | NotesButton
    | PlayButton
    | PrevButton
    | NextButton
    | Dot(i: int)

  /** A dot can only be clicked when it is rendered, one per slide. */
  predicate Rendered(ev: Event)
  {
    ev.Dot? ==> 0 <= ev.i < SlideCount
  }

  /** What an event leads to: a new page state, or leaving for the dashboard (Escape). */
  datatype Outcome = Stay(state: PageState) | Leave

  /** The Prev button is disabled on the first slide. */
  function PrevDisabled(s: PageState): (r: bool)
    ensures r <==> s.currentSlide == 0
  {
    s.currentSlide == 0
  }

  /** The Next button is disabled on the last slide. */
  function NextDisabled(s: PageState): (r: bool)
    ensures r <==> s.currentSlide == SlideCount - 1
  {
    s.currentSlide == SlideCount - 1
  }

  /** The keyboard handler: arrow right and space advance, arrow left goes back, `n` toggles the notes. */
  function OnKey(s: PageState, key: string): (r: Outcome)
    ensures r.Leave? <==> key == "Escape"
    ensures r.Stay? ==> r.state.isPlaying == s.isPlaying
    ensures r.Stay? && InRange(s) ==> InRange(r.state)
    ensures key !in {"ArrowRight", " ", "ArrowLeft", "n", "Escape"} ==> r == Stay(s)
  {
    if key == "ArrowRight" || key == " " then Stay(s.(currentSlide := NextIndex(s.currentSlide)))
    else if key == "ArrowLeft" then Stay(s.(currentSlide := PrevIndex(s.currentSlide)))
    else if key == "n" then Stay(s.(showNotes := !s.showNotes))
    else if key == "Escape" then Leave
    else Stay(s)
  }

  /** The page's response to one event. */
  function Step(s: PageState, ev: Event): (r: Outcome)
    requires InRange(s) && Rendered(ev)
    ensures r.Stay? ==> InRange(r.state)
    ensures r.Leave? <==> ev == KeyDown("Escape")
  {
    match ev
    case KeyDown(key) => OnKey(s, key)
    case Tick => if s.isPlaying then Stay(s.(currentSlide := NextIndex(s.currentSlide))) else Stay(s)
    case NotesButton => Stay(s.(showNotes := !s.showNotes))
    case PlayButton => Stay(s.(isPlaying := !s.isPlaying))
    case PrevButton => if PrevDisabled(s) then Stay(s) else Stay(s.(currentSlide := PrevIndex(s.currentSlide)))
    case NextButton => if NextDisabled(s) then Stay(s) else Stay(s.(currentSlide := NextIndex(s.currentSlide)))
    case Dot(i) => Stay(s.(currentSlide := i))
  }

  /** The state after a sequence of events, or `Leave` once Escape has been pressed. */
  function Run(s: PageState, evs: seq<Event>): (r: Outcome)
    requires InRange(s) && forall k :: 0 <= k < |evs| ==> Rendered(evs[k])
    ensures r.Leave? <==> KeyDown("Escape") in evs
    decreases |evs|
  {
    if evs == [] then Stay(s)
    else
      assert evs == [evs[0]] + evs[1..];
      match Step(s, evs[0])
      case Leave => Leave
      case Stay(t) => Run(t, evs[1..])
  }

  /** The slide index stays within the deck under every sequence of events. */
  lemma {:induction false} RunStaysInRange(s: PageState, evs: seq<Event>)
    requires InRange(s) && forall k :: 0 <= k < |evs| ==> Rendered(evs[k])
    ensures Run(s, evs).Stay? ==> InRange(Run(s, evs).state)
    decreases |evs|
  {
    if evs != [] {
      match Step(s, evs[0])
      case Leave =>
      case Stay(t) => RunStaysInRange(t, evs[1..]);
    }
  }

  /** The page leaves only through an Escape key press. */
  lemma {:induction false} RunLeavesOnlyOnEscape(s: PageState, evs: seq<Event>)
    requires InRange(s) && forall k :: 0 <= k < |evs| ==> Rendered(evs[k])
    requires forall k :: 0 <= k < |evs| ==> evs[k] != KeyDown("Escape")
    ensures Run(s, evs).Stay?
    decreases |evs|
  {
    if evs != [] {
      RunLeavesOnlyOnEscape(Step(s, evs[0]).state, evs[1..]);
    }
  }

  /** From an interior slide, next followed by prev returns to it. */
  lemma NextThenPrev(k: int)
    requires 0 <= k < SlideCount - 1
    ensures PrevIndex(NextIndex(k)) == k
  {
  }

  /** From any slide but the first, prev followed by next returns to it. */
  lemma PrevThenNext(k: int)
    requires 0 < k < SlideCount
    ensures NextIndex(PrevIndex(k)) == k
  {
  }

  /** A key other than the five the handler knows changes nothing. */
  lemma OtherKeysIgnored(s: PageState, key: string)
    requires InRange(s)
    requires key !in {"ArrowRight", " ", "ArrowLeft", "n", "Escape"}
    ensures Step(s, KeyDown(key)) == Stay(s)
  {
  }

  /** Pressing a disabled button would not have moved the slide anyway. */
  lemma DisabledButtonsAreNoOps(s: PageState)
    requires InRange(s)
    ensures PrevDisabled(s) ==> PrevIndex(s.currentSlide) == s.currentSlide
    ensures NextDisabled(s) ==> NextIndex(s.currentSlide) == s.currentSlide
  {
  }

  /** Toggling the notes, or auto-play, twice restores the previous state. */
  lemma ToggleTwice(s: PageState)
    requires InRange(s)
    ensures Step(Step(s, NotesButton).state, NotesButton) == Stay(s)
    ensures Step(Step(s, PlayButton).state, PlayButton) == Stay(s)
    ensures Step(Step(s, KeyDown("n")).state, KeyDown("n")) == Stay(s)
  {
  }

  /** `n` ticks while playing, with no other input. */
  function Ticks(n: nat): (r: seq<Event>)
    ensures |r| == n && forall k :: 0 <= k < n ==> r[k] == Tick
  {
    if n == 0 then [] else [Tick] + Ticks(n - 1)
  }

  /** While playing, `n` ticks advance `n` slides and then stay on the last one. */
  lemma {:induction false} TicksSaturate(s: PageState, n: nat)
    requires InRange(s) && s.isPlaying
    ensures Run(s, Ticks(n)).Stay?
    ensures Run(s, Ticks(n)).state == s.(currentSlide := if s.currentSlide + n <= SlideCount - 1 then s.currentSlide + n else SlideCount - 1)
    decreases n
  {
    if n > 0 {
      var t := Step(s, Tick).state;
      assert Ticks(n)[1..] == Ticks(n - 1);
      TicksSaturate(t, n - 1);
    }
  }

  /** While paused, ticks change nothing. */
  lemma {:induction false} PausedTicksIgnored(s: PageState, n: nat)
    requires InRange(s) && !s.isPlaying
    ensures Run(s, Ticks(n)) == Stay(s)
    decreases n
  {
    if n > 0 {
      assert Ticks(n)[1..] == Ticks(n - 1);
      PausedTicksIgnored(s, n - 1);
    }
  }

  /** The page component's three state fields. */
  class PresentationPage {
    var currentSlide: int
    var isPlaying: bool
    var showNotes: bool

    function State(): PageState
      reads this
    {
      PageState(currentSlide, isPlaying, showNotes)
    }

    /** A freshly mounted page is in the initial state. */
    constructor ()
      ensures State() == Initial
    {
      currentSlide, isPlaying, showNotes := 0, false, true;
    }

    /** `nextSlide` (:668-670). */
    method NextSlide()
      modifies this
      ensures currentSlide == NextIndex(old(currentSlide))
      ensures isPlaying == old(isPlaying) && showNotes == old(showNotes)
    {
      currentSlide := if currentSlide + 1 <= SlideCount - 1 then currentSlide + 1 else SlideCount - 1;
    }

    /** `prevSlide` (:672-674). */
    method PrevSlide()
      modifies this
      ensures currentSlide == PrevIndex(old(currentSlide))
      ensures isPlaying == old(isPlaying) && showNotes == old(showNotes)
    {
      currentSlide := if currentSlide - 1 >= 0 then currentSlide - 1 else 0;
    }

    /** `handleKeyDown` (:677-688); `leave` is set when the page navigates back to the dashboard. */
    method HandleKeyDown(key: string) returns (leave: bool)
      requires InRange(State())
      modifies this
      ensures leave <==> Step(old(State()), KeyDown(key)).Leave?
      ensures !leave ==> State() == Step(old(State()), KeyDown(key)).state
      ensures InRange(State())
    {
      leave := false;
      if key == "ArrowRight" || key == " " {
        NextSlide();
      } else if key == "ArrowLeft" {
        PrevSlide();
      } else if key == "n" {
        showNotes := !showNotes;
      } else if key == "Escape" {
        leave := true;
      }
    }

    /** The auto-play interval firing (:694-699): the interval only exists while playing. */
    method OnTick()
      requires InRange(State())
      modifies this
      ensures State() == Step(old(State()), Tick).state
    {
      if isPlaying {
        NextSlide();
      }
    }

    /** The notes button (:724). */
    method ToggleNotes()
      requires InRange(State())
      modifies this
      ensures State() == Step(old(State()), NotesButton).state
    {
      showNotes := !showNotes;
    }

    /** The play/pause button (:732). */
    method TogglePlay()
      requires InRange(State())
      modifies this
      ensures State() == Step(old(State()), PlayButton).state
    {
      isPlaying := !isPlaying;
    }

    /** A click on the `i`-th slide dot (:786-789). */
    method GoTo(i: int)
      requires InRange(State()) && 0 <= i < SlideCount
      modifies this
      ensures State() == Step(old(State()), Dot(i)).state
    {
      currentSlide := i;
    }
  }
}
