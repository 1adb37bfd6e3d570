/**
 * The typing animation of the landing page: a phrase is typed one character
 * per tick, held, deleted one character per tick, and the next phrase of a
 * fixed list follows. The two timers of the page are modelled as events:
 * `Tick` is the effect's timer firing, `DeferredStartDeleting` is the delayed
 * `setIsDeleting(true)` that a tick schedules once a phrase is fully typed.
 */
module Typewriter {

  /** The phrases the hero heading cycles through, in order. */
  const Phrases: seq<string> := ["Cloud & DevOps", "AWS & Azure", "Docker & K8s", "CI/CD Pipelines"]

  /** `loopNum % phrases.length`: always a valid index into the phrase list. */
  function PhraseIndex(loopNum: nat): (i: nat)
    ensures i < |Phrases|
    ensures (loopNum + 1) % |Phrases| == (i + 1) % |Phrases|
  {
    loopNum % |Phrases|
  }

  function CurrentPhrase(loopNum: nat): string
  {
    Phrases[PhraseIndex(loopNum)]
  }

  /**
   * JavaScript's `s.substring(0, end)`: the first `end` characters, with
   * `end` clamped into `0..|s|`.
   */
  function Substring0(s: string, end: int): (r: string)
    ensures r <= s
    ensures |r| == if end < 0 then 0 else if end > |s| then |s| else end
  {
    if end < 0 then "" else if end > |s| then s else s[..end]
  }

  /** The three pieces of React state the animation keeps. */
  datatype TypingState = TypingState(displayText: string, isDeleting: bool, loopNum: nat)

  /** `useState("")`, `useState(false)`, `useState(0)`. */
  const Initial: TypingState := TypingState("", false, 0)

  /** A tick's new state, and whether it scheduled the deferred start of deleting. */
  datatype TickResult = TickResult(next: TypingState, scheduledDelete: bool)

  /** What one firing of the effect's timer does to the state. */
  function TickStep(s: TypingState): TickResult
  {
    var phrase := CurrentPhrase(s.loopNum);
    if !s.isDeleting && s.displayText == phrase then
      TickResult(s, true)
    else if s.isDeleting && s.displayText == "" then
      TickResult(s.(isDeleting := false, loopNum := s.loopNum + 1), false)
    else
      var end := if s.isDeleting then |s.displayText| - 1 else |s.displayText| + 1;
      TickResult(s.(displayText := Substring0(phrase, end)), false)
  }

  /** What the deferred `setIsDeleting(true)` does. */
  function DeferredStep(s: TypingState): TypingState
  {
    s.(isDeleting := true)
  }

  /** The shown text is a prefix of the phrase being animated (so never longer). */
  ghost predicate Inv(s: TypingState)
  {
    s.displayText <= CurrentPhrase(s.loopNum)
  }

  /** The two events the animation reacts to. */
  datatype Event = Tick | DeferredStartDeleting

  function Apply(s: TypingState, e: Event): TypingState
  {
    match e
    case Tick => TickStep(s).next
    case DeferredStartDeleting => DeferredStep(s)
  }

  /** The state after a run of events, applied in order. */
  function Run(s: TypingState, events: seq<Event>): TypingState
    decreases |events|
  {
    if events == [] then s else Run(Apply(s, events[0]), events[1..])
  }

  /** A typing tick adds the next character of the phrase. */
  lemma TypingTick(s: TypingState)
    requires !s.isDeleting && s.displayText != CurrentPhrase(s.loopNum)
    ensures var phrase := CurrentPhrase(s.loopNum); var r := TickStep(s);
      && !r.scheduledDelete
      && r.next.isDeleting == s.isDeleting && r.next.loopNum == s.loopNum
      && r.next.displayText <= phrase
      && (Inv(s) ==> r.next.displayText == phrase[..|s.displayText| + 1])
  {
  }

  /** A deleting tick on a non-empty text removes its last character. */
  lemma DeletingTick(s: TypingState)
    requires s.isDeleting && s.displayText != ""
    ensures var phrase := CurrentPhrase(s.loopNum); var r := TickStep(s);
      && !r.scheduledDelete
      && r.next.isDeleting == s.isDeleting && r.next.loopNum == s.loopNum
      && (Inv(s) ==> (r.next.displayText == phrase[..|s.displayText| - 1] &&
                      r.next.displayText == s.displayText[..|s.displayText| - 1]))
  {
  }

  /** Once everything is deleted, a tick moves on to the next phrase. */
  lemma ExhaustedTickAdvances(s: TypingState)
    requires s.isDeleting && s.displayText == ""
    ensures TickStep(s) == TickResult(TypingState("", false, s.loopNum + 1), false)
    ensures PhraseIndex(TickStep(s).next.loopNum) == (PhraseIndex(s.loopNum) + 1) % |Phrases|
  {
  }

  /**
   * On a fully typed phrase a tick changes nothing and only schedules the
   * deferred action; ticks never start deleting, only the deferred action does.
   */
  lemma FullyTypedTickHolds(s: TypingState)
    ensures !s.isDeleting && s.displayText == CurrentPhrase(s.loopNum) <==>
            TickStep(s).scheduledDelete
    ensures TickStep(s).scheduledDelete ==> TickStep(s).next == s
    ensures TickStep(s).next.isDeleting ==> s.isDeleting
    ensures DeferredStep(s).isDeleting
  {
  }

  /** Every tick from a state satisfying the invariant keeps it. */
  lemma TickKeepsInv(s: TypingState)
    requires Inv(s)
    ensures Inv(TickStep(s).next)
  {
  }

  /** The deferred start of deleting keeps the invariant, whenever it fires. */
  lemma DeferredKeepsInv(s: TypingState)
    requires Inv(s)
    ensures Inv(DeferredStep(s))
  {
  }

  /** From the invariant, a tick changes the text's length by at most one. */
  lemma TickMovesAtMostOne(s: TypingState)
    requires Inv(s)
    ensures var n, m := |s.displayText|, |TickStep(s).next.displayText|;
      n - 1 <= m <= n + 1
  {
  }

  /**
   * Whatever order the timers fire in, starting from the initial state the
   * text is always a prefix of the current phrase, no longer than it.
   */
  lemma {:induction false} RunKeepsInv(s: TypingState, events: seq<Event>)
    requires Inv(s)
    ensures Inv(Run(s, events))
    ensures |Run(s, events).displayText| <= |CurrentPhrase(Run(s, events).loopNum)|
    decreases |events|
  {
    if events != [] {
      match events[0] {
        case Tick => TickKeepsInv(s);
        case DeferredStartDeleting => DeferredKeepsInv(s);
      }
      RunKeepsInv(Apply(s, events[0]), events[1..]);
    }
  }

  lemma ReachableStatesKeepInv(events: seq<Event>)
    ensures Inv(Run(Initial, events))
  {
    RunKeepsInv(Initial, events);
  }

  /** The component's animation state, updated in place by its setters. */
  class TypewriterEffect {
    var displayText: string
    var isDeleting: bool
    var loopNum: nat

    function State(): TypingState
      reads this
    {
      TypingState(displayText, isDeleting, loopNum)
    }

    constructor ()
      ensures State() == Initial
    {
      displayText, isDeleting, loopNum := "", false, 0;
    }

    /** The effect's timer fires once. */
    method Tick() returns (scheduledDelete: bool)
      modifies this
      ensures TickResult(State(), scheduledDelete) == TickStep(old(State()))
      ensures old(Inv(State())) ==> Inv(State())
    {
      if Inv(State()) {
        TickKeepsInv(State());
      }
      var phrase := CurrentPhrase(loopNum);
      scheduledDelete := false;
      if !isDeleting && displayText == phrase {
        scheduledDelete := true;
      } else if isDeleting && displayText == "" {
        isDeleting := false;
        loopNum := loopNum + 1;
      } else {
        displayText := Substring0(phrase, if isDeleting then |displayText| - 1 else |displayText| + 1);
      }
    }

    /** The timer scheduled by a tick on a fully typed phrase fires. */
    method DeferredStartDeleting()
      modifies this
      ensures State() == DeferredStep(old(State()))
      ensures old(Inv(State())) ==> Inv(State())
    {
      isDeleting := true;
    }
  }
}
