/** The listening toggle of the `VoiceAssistant` component
    (app/components/VoiceAssistant.js): two pieces of component state,
    `isListening` and `status`, changed by the main button, the close button
    and the keyboard handler. Starting and stopping the voice session itself
    is not implemented by the component and is not modelled. */
module VoiceAssistantUi {

  const IdleStatus: string := "Click to start voice assistant"
  const ListeningStatus: string := "Listening... Speak now"
  const StoppedStatus: string := "Voice assistant stopped"

  /** A snapshot of the component state. */
  datatype UiState = UiState(isListening: bool, status: string)

  const Initial: UiState := UiState(false, IdleStatus)

  // ---------------------------------------------------------------------------
  // Specification of the transitions.

  /** `toggleListening`. */
  function Toggled(s: UiState): UiState {
    if s.isListening then UiState(false, StoppedStatus) else UiState(true, ListeningStatus)
  }

  /** `stopListening`. */
  function Stopped(s: UiState): UiState {
    UiState(false, StoppedStatus)
  }

  /** The test in `handleKeyPress`: the event target lies inside the main
      button and the key is Enter or Space. */
  predicate IsActivation(targetInButton: bool, key: string) {
    targetInButton && (key == "Enter" || key == " ")
  }

  function KeyPressed(s: UiState, targetInButton: bool, key: string): UiState {
    if IsActivation(targetInButton, key) then Toggled(s) else s
  }

  /** The states the component can be in: listening with the listening
      message, or not listening with the start or the stopped message. */
  predicate Consistent(s: UiState) {
    if s.isListening then s.status == ListeningStatus
    else s.status == IdleStatus || s.status == StoppedStatus
  }

  // ---------------------------------------------------------------------------
  // Properties of the transitions.

  /** The initial state is not listening and shows the start prompt. */
  lemma InitialState()
    ensures !Initial.isListening && Initial.status == IdleStatus && Consistent(Initial)
  {
  }

  /** Toggling flips `isListening` and shows the message of the new mode. */
  lemma ToggleFlips(s: UiState)
    ensures Toggled(s).isListening == !s.isListening
    ensures !s.isListening ==> Toggled(s).status == ListeningStatus
    ensures s.isListening ==> Toggled(s).status == StoppedStatus
  {
  }

  /** Toggling twice restores `isListening` (the status becomes the message
      of the restored mode, so the initial start prompt is not restored). */
  lemma ToggleInvolution(s: UiState)
    ensures Toggled(Toggled(s)).isListening == s.isListening
    ensures Consistent(s) && s.status != IdleStatus ==> Toggled(Toggled(s)) == s
  {
  }

  /** Stopping always ends not listening with the stopped message, and
      stopping twice is the same as stopping once. */
  lemma StopIdempotent(s: UiState)
    ensures !Stopped(s).isListening && Stopped(s).status == StoppedStatus
    ensures Stopped(Stopped(s)) == Stopped(s)
  {
  }

  /** A key press toggles exactly on Enter or Space inside the button and
      leaves the state unchanged otherwise. */
  lemma KeyPressOnlyOnActivation(s: UiState, targetInButton: bool, key: string)
    ensures IsActivation(targetInButton, key) ==> KeyPressed(s, targetInButton, key) == Toggled(s)
    ensures !IsActivation(targetInButton, key) ==> KeyPressed(s, targetInButton, key) == s
    ensures !targetInButton ==> KeyPressed(s, targetInButton, key) == s
  {
  }

  /** In a consistent state the message alone tells whether the assistant listens. */
  lemma StatusDeterminesListening(s: UiState)
    requires Consistent(s)
    ensures s.isListening <==> s.status == ListeningStatus
  {
  }

  // ---------------------------------------------------------------------------
  // Event sequences.

  /** What the user can do: click the main button, click the close button
      (rendered only while listening), or press a key on some target. */
  datatype Event = MainClick | CloseClick | KeyDown(targetInButton: bool, key: string)

  function Step(s: UiState, e: Event): UiState {
    match e
    case MainClick => Toggled(s)
    case CloseClick => if s.isListening then Stopped(s) else s
    case KeyDown(inButton, key) => KeyPressed(s, inButton, key)
  }

  function Run(s: UiState, events: seq<Event>): UiState
    decreases |events|
  {
    if events == [] then s else Run(Step(s, events[0]), events[1..])
  }

  /** Every state reachable from the initial state by any sequence of user
      events is consistent. */
  lemma {:induction false} ReachableConsistent(s: UiState, events: seq<Event>)
    requires Consistent(s)
    ensures Consistent(Run(s, events))
    decreases |events|
  {
    if events != [] {
      ReachableConsistent(Step(s, events[0]), events[1..]);
    }
  }

  /** A run of key presses none of which is an activation leaves the state unchanged. */
  lemma {:induction false} IgnoredKeysChangeNothing(s: UiState, events: seq<Event>)
    requires forall i :: 0 <= i < |events| ==> events[i].KeyDown? && !IsActivation(events[i].targetInButton, events[i].key)
    ensures Run(s, events) == s
    decreases |events|
  {
    if events != [] {
      IgnoredKeysChangeNothing(s, events[1..]);
    }
  }

  // ---------------------------------------------------------------------------
  // The component.

  class VoiceAssistant {
    var isListening: bool
    var status: string

    function State(): UiState
      reads this
    {
      UiState(isListening, status)
    }

    /** The class invariant: the fields form a consistent state, so the
        status message alone tells whether the assistant is listening. */
    predicate Valid()
      reads this
      ensures Valid() ==> (isListening <==> status == ListeningStatus)
    {
      Consistent(State())
    }

    /** Mounting: `useState(false)` and `useState('Click to start voice assistant')`. */
    constructor ()
      ensures State() == Initial && Valid()
    {
      isListening := false;
      status := IdleStatus;
    }

    /** `toggleListening`: the main button's click handler. */
    method ToggleListening()
      modifies this
      ensures State() == Toggled(old(State())) && Valid()
      ensures isListening == !old(isListening)
      ensures status == if isListening then ListeningStatus else StoppedStatus
    {
      if isListening {
        isListening := false;
        status := StoppedStatus;
      } else {
        isListening := true;
        status := ListeningStatus;
      }
    }

    /** `stopListening`: the close button's click handler. */
    method StopListening()
      modifies this
      ensures State() == Stopped(old(State())) && Valid()
      ensures !isListening && status == StoppedStatus
    {
      isListening := false;
      status := StoppedStatus;
    }

    /** `handleKeyPress`: whether the target lies inside the main button is
        passed in. Returns whether the default action was prevented. */
    method HandleKeyPress(targetInButton: bool, key: string) returns (prevented: bool)
      modifies this
      ensures prevented <==> targetInButton && (key == "Enter" || key == " ")
      ensures State() == KeyPressed(old(State()), targetInButton, key)
      ensures !prevented ==> isListening == old(isListening) && status == old(status)
      ensures old(Valid()) ==> Valid()
    {
      prevented := false;
      if targetInButton {
        if key == "Enter" || key == " " {
          prevented := true;
          ToggleListening();
        }
      }
    }
  }
}
