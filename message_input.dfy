/** The message box: the text being typed, whether this client has announced
    that it is typing, and the 1000 ms "stop typing" timer. Each handler
    returns the calls it makes on the chat context (`startTyping`,
    `stopTyping`, `sendMessage`). A timer callback sees the `isTyping` and
    `currentRoom` of the render that scheduled it, not the current ones. */
module MessageInput {
  import opened Wrappers
  import opened Text
  import opened ClientModel
  import Seqs

  /** Delay of the stop-typing timer; the model fires timers as explicit events. */
  const StopTypingDelayMs: int := 1000

  /** What a timer callback closed over. */
  datatype Capture = Capture(wasTyping: bool, room: Option<RoomId>)

  /** A scheduled, not yet fired or cleared, timer. */
  datatype Timer = Timer(id: nat, capture: Capture)

  /** `message`, `isTyping`, the scheduled timers, `typingTimeoutRef.current`
      (the id of the last timer set, never reset) and the next timer id. */
  datatype InputState = InputState(
    message: string, isTyping: bool, pending: seq<Timer>, timeoutRef: Option<nat>, nextId: nat)

  datatype InputAction =
    | StartTyping(roomId: RoomId)
    | StopTyping(roomId: RoomId)
    | SendMessage(roomId: RoomId, content: string, kind: string)

  datatype Step = Step(state: InputState, actions: seq<InputAction>)

  const Initial: InputState := InputState("", false, [], None, 0)

  /** `clearTimeout(typingTimeoutRef.current)`: the timer the ref names, if
      still scheduled, is cancelled. */
  function ClearRef(pending: seq<Timer>, timeoutRef: Option<nat>): seq<Timer> {
    if timeoutRef.None? then pending else Seqs.Filter(pending, (t: Timer) => t.id != timeoutRef.value)
  }

  /** At most one timer is scheduled, and it is the one the ref names. */
  predicate Valid(s: InputState) {
    && |s.pending| <= 1
    && (|s.pending| == 1 ==> s.timeoutRef == Some(s.pending[0].id))
    && (s.timeoutRef.Some? ==> s.timeoutRef.value < s.nextId)
  }

  /** `handleInputChange(value)` with the current room. */
  function Change(s: InputState, value: string, room: Option<RoomId>): Step {
    var start := Trim(value) != "" && !s.isTyping && room.Some?;
    var started := if start then [StartTyping(room.value)] else [];
    var cleared := ClearRef(s.pending, s.timeoutRef);
    if Trim(value) != "" then
      var t := Timer(s.nextId, Capture(s.isTyping, room));
      Step(InputState(value, s.isTyping || start, cleared + [t], Some(s.nextId), s.nextId + 1), started)
    else if s.isTyping && room.Some? then
      Step(s.(message := value, isTyping := false, pending := cleared), [StopTyping(room.value)])
    else
      Step(s.(message := value, pending := cleared), [])
  }

  /** `handleSubmit`. */
  function Submit(s: InputState, room: Option<RoomId>): Step {
    if Trim(s.message) == "" || room.None? then Step(s, [])
    else
      var sent := [SendMessage(room.value, Trim(s.message), "text")];
      var stopped := if s.isTyping then [StopTyping(room.value)] else [];
      Step(s.(message := "", isTyping := false, pending := ClearRef(s.pending, s.timeoutRef)), sent + stopped)
  }

  /** `handleKeyDown`: Enter without Shift submits. */
  function KeyDown(s: InputState, key: string, shift: bool, room: Option<RoomId>): Step {
    if key == "Enter" && !shift then Submit(s, room) else Step(s, [])
  }

  /** `handleBlur`. */
  function Blur(s: InputState, room: Option<RoomId>): Step {
    if s.isTyping && room.Some? then
      Step(s.(isTyping := false, pending := ClearRef(s.pending, s.timeoutRef)), [StopTyping(room.value)])
    else Step(s, [])
  }

  /** The scheduled timer at position `i` fires and runs its callback with
      the values it captured. */
  function Fire(s: InputState, i: nat): Step
    requires i < |s.pending|
  {
    var t := s.pending[i];
    var rest := s.pending[..i] + s.pending[i + 1..];
    if t.capture.wasTyping && t.capture.room.Some? then
      Step(s.(isTyping := false, pending := rest), [StopTyping(t.capture.room.value)])
    else Step(s.(pending := rest), [])
  }

  lemma {:induction false} ClearRefEmpties(s: InputState)
    requires Valid(s)
    ensures ClearRef(s.pending, s.timeoutRef) == []
  {
    if |s.pending| == 1 {
      var p := (t: Timer) => t.id != s.timeoutRef.value;
      assert s.pending[1..] == [];
      assert Seqs.Filter(s.pending[1..], p) == [];
    }
  }

  /** Every handler keeps at most one timer scheduled; a keystroke with
      non-blank content leaves exactly one, the one it just set. */
  lemma ChangeKeepsOneTimer(s: InputState, value: string, room: Option<RoomId>)
    requires Valid(s)
    ensures Valid(Change(s, value, room).state)
    ensures Trim(value) != "" ==>
      var p := Change(s, value, room).state.pending;
      |p| == 1 && p[0].id == s.nextId && p[0].capture == Capture(s.isTyping, room)
    ensures Trim(value) == "" ==> Change(s, value, room).state.pending == []
  {
    ClearRefEmpties(s);
  }

  lemma HandlersKeepValid(s: InputState, room: Option<RoomId>, key: string, shift: bool)
    requires Valid(s)
    ensures Valid(Submit(s, room).state) && Valid(Blur(s, room).state) && Valid(KeyDown(s, key, shift, room).state)
    ensures forall i :: 0 <= i < |s.pending| ==> Valid(Fire(s, i).state)
  {
    ClearRefEmpties(s);
  }

  /** Submitting a blank message, or without a room, does nothing. */
  lemma SubmitBlankOrRoomlessDoesNothing(s: InputState, room: Option<RoomId>)
    requires Trim(s.message) == "" || room.None?
    ensures Submit(s, room) == Step(s, [])
  {
  }

  /** A real submit sends the trimmed text as a `text` message, clears the
      box, and — when typing was announced — emits exactly one stop. */
  lemma SubmitSendsTrimmed(s: InputState, r: RoomId)
    requires Trim(s.message) != ""
    ensures var st := Submit(s, Some(r));
      && st.actions[0] == SendMessage(r, Trim(s.message), "text")
      && st.state.message == "" && !st.state.isTyping
      && st.actions == [SendMessage(r, Trim(s.message), "text")] + (if s.isTyping then [StopTyping(r)] else [])
      && (s.isTyping <==> |st.actions| == 2)
  {
  }

  /** `startTyping` is emitted exactly on the transition to typing. */
  lemma StartOnlyOnTransition(s: InputState, value: string, room: Option<RoomId>)
    ensures var st := Change(s, value, room);
      && ((exists r :: StartTyping(r) in st.actions) <==> (Trim(value) != "" && !s.isTyping && room.Some?))
      && (s.isTyping ==> forall a :: a in st.actions ==> !a.StartTyping?)
      && (Trim(value) != "" && room.Some? ==> st.state.isTyping)
  {
  }

  /** Clearing the box while typing emits `stopTyping` and ends typing. */
  lemma BlankWhileTypingStops(s: InputState, value: string, r: RoomId)
    requires Trim(value) == "" && s.isTyping
    ensures Change(s, value, Some(r)).actions == [StopTyping(r)]
    ensures !Change(s, value, Some(r)).state.isTyping
  {
  }

  /** A timer emits `stopTyping` only if typing was already announced when it
      was scheduled. */
  lemma TimerUsesCapturedFlag(s: InputState, i: nat)
    requires i < |s.pending|
    ensures var c := s.pending[i].capture;
      (Fire(s, i).actions != [] <==> c.wasTyping && c.room.Some?)
  {
  }

  /** The stale closure: after one keystroke from idle, the timer that
      keystroke set fires without sending `stopTyping`, and the client stays
      marked as typing. */
  lemma FirstKeystrokeTimerNeverStops(value: string, r: RoomId)
    requires Trim(value) != ""
    ensures var typed := Change(Initial, value, Some(r));
      && typed.actions == [StartTyping(r)]
      && |typed.state.pending| == 1
      && var fired := Fire(typed.state, 0);
         fired.actions == [] && fired.state.isTyping && fired.state.pending == []
  {
    assert Valid(Initial);
    ChangeKeepsOneTimer(Initial, value, Some(r));
  }

  /** Blur while typing stops and clears the timer; otherwise it does nothing.
      Enter without Shift is a submit. */
  lemma BlurAndEnter(s: InputState, room: Option<RoomId>)
    requires Valid(s)
    ensures s.isTyping && room.Some? ==>
      Blur(s, room).actions == [StopTyping(room.value)] && Blur(s, room).state.pending == []
      && !Blur(s, room).state.isTyping
    ensures !(s.isTyping && room.Some?) ==> Blur(s, room) == Step(s, [])
    ensures KeyDown(s, "Enter", false, room) == Submit(s, room)
    ensures KeyDown(s, "Enter", true, room) == Step(s, [])
  {
    ClearRefEmpties(s);
  }

  /** The component: its state hooks and timeout ref as fields, one method per handler. */
  class MessageBox {
    var message: string
    var isTyping: bool
    var pending: seq<Timer>
    var timeoutRef: Option<nat>
    var nextId: nat

    function State(): InputState
      reads this
    {
      InputState(message, isTyping, pending, timeoutRef, nextId)
    }

    constructor ()
      ensures State() == Initial
    {
      message, isTyping, pending, timeoutRef, nextId := "", false, [], None, 0;
    }

    method ClearTimeout()
      modifies this
      ensures State() == old(State()).(pending := ClearRef(old(pending), old(timeoutRef)))
    {
      pending := ClearRef(pending, timeoutRef);
    }

    method HandleInputChange(value: string, room: Option<RoomId>) returns (out: seq<InputAction>)
      modifies this
      ensures Step(State(), out) == Change(old(State()), value, room)
    {
      var typing := isTyping;  // the render's value, also what a new timer captures
      var filled := Trim(value) != "";
      message := value;
      out := [];
      if filled && !typing && room.Some? {
        isTyping := true;
        out := out + [StartTyping(room.value)];
      }
      ClearTimeout();
      if filled {
        pending := pending + [Timer(nextId, Capture(typing, room))];
        timeoutRef := Some(nextId);
        nextId := nextId + 1;
      } else if typing && room.Some? {
        isTyping := false;
        out := out + [StopTyping(room.value)];
      }
    }

    method HandleSubmit(room: Option<RoomId>) returns (out: seq<InputAction>)
      modifies this
      ensures Step(State(), out) == Submit(old(State()), room)
    {
      if Trim(message) == "" || room.None? {
        return [];
      }
      out := [SendMessage(room.value, Trim(message), "text")];
      message := "";
      if isTyping {
        isTyping := false;
        out := out + [StopTyping(room.value)];
      }
      ClearTimeout();
    }

    method HandleKeyDown(key: string, shift: bool, room: Option<RoomId>) returns (out: seq<InputAction>)
      modifies this
      ensures Step(State(), out) == KeyDown(old(State()), key, shift, room)
    {
      out := [];
      if key == "Enter" && !shift {
        out := HandleSubmit(room);
      }
    }

    method HandleBlur(room: Option<RoomId>) returns (out: seq<InputAction>)
      modifies this
      ensures Step(State(), out) == Blur(old(State()), room)
    {
      out := [];
      if isTyping && room.Some? {
        isTyping := false;
        out := [StopTyping(room.value)];
        ClearTimeout();
      }
    }

    /** The scheduled timer at position `i` fires. */
    method TimerFires(i: nat) returns (out: seq<InputAction>)
      requires i < |pending|
      modifies this
      ensures Step(State(), out) == Fire(old(State()), i)
    {
      var t := pending[i];
      pending := pending[..i] + pending[i + 1..];
      out := [];
      if t.capture.wasTyping && t.capture.room.Some? {
        isTyping := false;
        out := [StopTyping(t.capture.room.value)];
      }
    }
  }
}
