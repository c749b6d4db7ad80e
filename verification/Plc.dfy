/** The sinusoid generator on the drive: a phase accumulator that is folded into a table of half a
    period. PLCMAIN watches the parameters and the drive, PLC1 runs every millisecond. */
module Plc {

  // ---- Arithmetic of the controller ---------------------------------------------------------------

  const TURN := 0x20_0000    // half a period
  const CYCLE := 0x40_0000   // a whole period
  const WORD := 0x1_0000_0000

  /** A LONG has 32 bits and a sign. */
  function Wrapped(x: int): (r: int)
    ensures -0x8000_0000 <= r < 0x8000_0000 && (r - x) % WORD == 0
  {
    (x + 0x8000_0000) % WORD - 0x8000_0000
  }

  /** Bit 21 of the phase: whether the table is read backwards. */
  function DirectionOf(step: int): int {
    step / TURN % 2
  }

  /** The entry of the table, in 11 bits. */
  function IndexOf(step: int): int {
    if DirectionOf(step) == 0 then step / 0x400 % 0x800 else 0x7FF - step / 0x400 % 0x800
  }

  /** The place between two entries, in 10 bits. */
  function RemainderOf(step: int): int {
    if DirectionOf(step) == 0 then step % 0x400 else 0x3FF - step % 0x400
  }

  function Position(step: int): int {
    IndexOf(step) * 0x400 + RemainderOf(step)
  }

  /** Up through the table and down again, for ever. */
  function Triangle(phase: int): int {
    var m := phase % CYCLE;
    if m < TURN then m else CYCLE - 1 - m
  }

  // ---- The state ----------------------------------------------------------------------------------

  datatype State = State(
    homed: bool,
    started: bool,
    changed: bool,
    amplitude: int,
    period: int,
    step: int,
    direction: int,
    previous: int,      // the direction of the tick before
    offset: int,
    index: int,
    remainder: int,
    newPosition: int,
    enable: int,        // DPRVAR10
    newAmplitude: int,  // DPRVAR11
    newPeriod: int)     // DPRVAR12

  /** What the controller reads in a tick. The steps required and the set-point come from functions of
      the controller that are not part of this model. */
  datatype Reading = Reading(status: int, mode: int, feedback: int, steps: int, setpoint: int)

  const SINUSOID_MODE := 5

  predicate DriveReady(s: State, r: Reading) {
    r.status == 0 && s.homed && r.mode == SINUSOID_MODE
  }

  function Main(s: State, trajectory: int): State {
    s.(changed := s.changed || s.amplitude != s.newAmplitude || s.period != s.newPeriod,
       homed := trajectory / 0x1_0000 % 4 == 2)
  }

  function Applied(s: State): State {
    s.(amplitude := s.newAmplitude, period := s.newPeriod, changed := false)
  }

  function Begin(s: State, r: Reading): State {
    var s := if s.enable != 0 then s.(started := true, step := 0, direction := 0, previous := 0) else s;
    (if s.changed then Applied(s) else s).(offset := r.feedback)
  }

  /** At a change of direction the motion may stop, and parameters may change. */
  function Turned(s: State): State {
    (if s.changed then Applied(s) else s).(started := s.started && s.enable != 0)
  }

  function Advance(s: State, r: Reading): State {
    var step := Wrapped(s.step + r.steps);
    var direction := DirectionOf(step);
    var s := if direction != s.previous then Turned(s) else s;
    s.(step := step, direction := direction, previous := direction,
       index := IndexOf(step), remainder := RemainderOf(step), newPosition := Wrapped(r.setpoint + s.offset))
  }

  function Tick(s: State, r: Reading): State {
    if !DriveReady(s, r) then s.(enable := 0, started := false)
    else if !s.started then Begin(s, r)
    else Advance(s, r)
  }

  // ---- Folding ------------------------------------------------------------------------------------

  /** What is read from the table is the phase folded at the turning points. */
  lemma PositionIsTriangle(step: int)
    ensures Position(step) == Triangle(step)
    ensures 0 <= IndexOf(step) < 0x800 && 0 <= RemainderOf(step) < 0x400
  {
    var q := step / 0x400;
    assert step / TURN == q / 0x800;
    assert step % CYCLE == step % TURN + TURN * (step / TURN % 2);
    assert step % TURN == q % 0x800 * 0x400 + step % 0x400;
  }

  lemma DirectionFromPhase(x: int)
    ensures DirectionOf(x) == if x % CYCLE < TURN then 0 else 1
  {
  }

  lemma CycleSum(phase: int, steps: nat)
    requires steps < CYCLE
    ensures var m := phase % CYCLE;
            (phase + steps) % CYCLE == if m + steps < CYCLE then m + steps else m + steps - CYCLE
  {
    var k, m := phase / CYCLE, phase % CYCLE;
    assert phase + steps == k * CYCLE + (m + steps);
  }

  /** The fold never moves further than the phase. */
  lemma TriangleMovesAtMost(phase: int, steps: nat)
    ensures Triangle(phase + steps) <= Triangle(phase) + steps && Triangle(phase) <= Triangle(phase + steps) + steps
    ensures 0 <= Triangle(phase) < TURN
  {
    if steps < TURN {
      CycleSum(phase, steps);
    }
  }

  /** A change of direction within less than half a period happens near an end of the table. */
  lemma TurnsNearEnds(phase: int, steps: nat)
    requires steps < TURN && DirectionOf(phase + steps) != DirectionOf(phase)
    ensures Triangle(phase + steps) < steps || Triangle(phase + steps) >= TURN - steps
  {
    hide DirectionOf;
    DirectionFromPhase(phase);
    DirectionFromPhase(phase + steps);
    CycleSum(phase, steps);
  }

  // ---- Runs -----------------------------------------------------------------------------------------

  datatype Event =
    | Watch(trajectory: int)        // PLCMAIN runs
    | Millisecond(reading: Reading) // PLC1 runs
    | SetEnable(value: int)
    | SetAmplitude(value: int)
    | SetPeriod(value: int)

  function Next(s: State, e: Event): State {
    match e
    case Watch(trajectory) => Main(s, trajectory)
    case Millisecond(reading) => Tick(s, reading)
    case SetEnable(value) => s.(enable := value)
    case SetAmplitude(value) => s.(newAmplitude := value)
    case SetPeriod(value) => s.(newPeriod := value)
  }

  function Run(s: State, events: seq<Event>): State
    decreases |events|
  {
    if events == [] then s else Next(Run(s, events[..|events| - 1]), events[|events| - 1])
  }

  /** The steps since the motion was last started, without any wrap-around. */
  function Phase(s: State, events: seq<Event>): int
    decreases |events|
  {
    if events == [] then s.step
    else
      var n := |events| - 1;
      var before, phase := Run(s, events[..n]), Phase(s, events[..n]);
      match events[n]
      case Millisecond(reading) =>
        if !DriveReady(before, reading) then phase
        else if before.started then phase + reading.steps
        else if before.enable != 0 then 0
        else phase
      case _ => phase
  }

  /** The direction remembered is the one of the last step. */
  predicate Remembers(s: State) {
    s.started ==> s.previous == DirectionOf(s.step)
  }

  lemma {:induction false} RunRemembers(s: State, events: seq<Event>)
    requires Remembers(s)
    ensures Remembers(Run(s, events)) && (Run(s, events).step - Phase(s, events)) % WORD == 0
    decreases |events|
  {
    if events != [] {
      var n := |events| - 1;
      RunRemembers(s, events[..n]);
      NextRemembers(Run(s, events[..n]), Phase(s, events[..n]), events[n]);
    }
  }

  lemma NextRemembers(s: State, phase: int, e: Event)
    requires Remembers(s) && (s.step - phase) % WORD == 0
    ensures Remembers(Next(s, e))
    ensures e.Millisecond? && DriveReady(s, e.reading) && s.started ==>
              (Next(s, e).step - (phase + e.reading.steps)) % WORD == 0
  {
    assert DirectionOf(0) == 0;
    hide DirectionOf, IndexOf, RemainderOf;
  }

  /** Wrap-around of 32 bits does not disturb the fold, because a period divides the word. */
  lemma SamePhase(x: int, y: int)
    requires (x - y) % WORD == 0
    ensures Triangle(x) == Triangle(y) && DirectionOf(x) == DirectionOf(y)
  {
    var k := (x - y) / WORD;
    assert x == y + k * 0x400 * CYCLE;
    assert x % CYCLE == y % CYCLE;
    DirectionFromPhase(x);
    DirectionFromPhase(y);
  }

  /** A millisecond of motion, in every run. The place read from the table is the triangle wave at the
      total number of steps since the start, however often the phase has wrapped around; it lies in the
      table and has moved by at most the steps of this millisecond. */
  lemma PlaceIsTriangleOfPhase(s: State, events: seq<Event>, r: Reading)
    requires Remembers(s) && DriveReady(Run(s, events), r) && Run(s, events).started
    ensures var t := Tick(Run(s, events), r);
            var place := t.index * 0x400 + t.remainder;
            && place == Triangle(Phase(s, events) + r.steps)
            && 0 <= place < TURN
            && (r.steps >= 0 ==> place <= Triangle(Phase(s, events)) + r.steps
                                 && Triangle(Phase(s, events)) <= place + r.steps)
  {
    hide Triangle, DirectionOf, IndexOf, RemainderOf, Run, Phase, DriveReady;
    RunRemembers(s, events);
    var before, phase := Run(s, events), Phase(s, events);
    var t := Tick(before, r);
    NextRemembers(before, phase, Millisecond(r));
    SamePhase(t.step, phase + r.steps);
    PositionIsTriangle(t.step);
    if r.steps >= 0 {
      TriangleMovesAtMost(phase, r.steps);
    }
    TriangleMovesAtMost(phase + r.steps, 0);
  }

  /** While the drive stays ready, the motion stops only when it has been disabled, and new parameters
      are taken over only, at a change of direction. That is near an end of the table, if less than half
      a period passes in a tick. */
  lemma ChangesOnlyAtTurns(s: State, events: seq<Event>, r: Reading)
    requires Remembers(s) && DriveReady(Run(s, events), r) && Run(s, events).started
    ensures var before := Run(s, events);
            var t := Tick(before, r);
            var turns := DirectionOf(Phase(s, events) + r.steps) != DirectionOf(Phase(s, events));
            var place := t.index * 0x400 + t.remainder;
            && (t.started <==> !(turns && before.enable == 0))
            && (t.amplitude, t.period) == (if turns && before.changed then (before.newAmplitude, before.newPeriod)
                                           else (before.amplitude, before.period))
            && t.offset == before.offset
            && (turns && 0 <= r.steps < TURN ==> place < r.steps || place >= TURN - r.steps)
  {
    hide Triangle, DirectionOf, IndexOf, RemainderOf, Run, Phase, DriveReady;
    RunRemembers(s, events);
    var before, phase := Run(s, events), Phase(s, events);
    var t := Tick(before, r);
    NextRemembers(before, phase, Millisecond(r));
    SamePhase(t.step, phase + r.steps);
    SamePhase(before.step, phase);
    PositionIsTriangle(t.step);
    if 0 <= r.steps < TURN && DirectionOf(phase + r.steps) != DirectionOf(phase) {
      TurnsNearEnds(phase, r.steps);
    }
  }

  // ---- Where the motion is, and when it stops -------------------------------------------------------

  /** The position the drive had when the motion was last not under way, in a tick in which it could have been. */
  function Anchor(s: State, events: seq<Event>): int
    decreases |events|
  {
    if events == [] then s.offset
    else
      var n := |events| - 1;
      var before, anchor := Run(s, events[..n]), Anchor(s, events[..n]);
      match events[n]
      case Millisecond(reading) => if DriveReady(before, reading) && !before.started then reading.feedback else anchor
      case _ => anchor
  }

  lemma {:induction false} OffsetIsAnchor(s: State, events: seq<Event>)
    ensures Run(s, events).offset == Anchor(s, events)
    decreases |events|
  {
    hide DirectionOf, IndexOf, RemainderOf, Wrapped;
    if events != [] {
      OffsetIsAnchor(s, events[..|events| - 1]);
    }
  }

  /** In every run, the position that is asked for is the set-point, counted from where the motion began; in 32
      bits. */
  lemma PositionIsRelative(s: State, events: seq<Event>, r: Reading)
    requires DriveReady(Run(s, events), r) && Run(s, events).started
    ensures var asked := Tick(Run(s, events), r).newPosition;
            && -0x8000_0000 <= asked < 0x8000_0000
            && (asked - (r.setpoint + Anchor(s, events))) % WORD == 0
  {
    OffsetIsAnchor(s, events);
    hide DirectionOf, IndexOf, RemainderOf, Run, Anchor, DriveReady;
    assert Tick(Run(s, events), r).newPosition == Wrapped(r.setpoint + Run(s, events).offset);
  }

  /** Once the watch has run, new parameters are taken over at the next turn, or at once where the motion is not
      under way: both of them, whichever has changed. */
  lemma ParametersTakenOver(s: State, trajectory: int, r: Reading)
    requires var w := Main(s, trajectory);
             DriveReady(w, r) && (w.started ==> DirectionOf(Wrapped(w.step + r.steps)) != w.previous)
    ensures var t := Tick(Main(s, trajectory), r);
            t.amplitude == s.newAmplitude && t.period == s.newPeriod && !t.changed
  {
    hide DirectionOf, IndexOf, RemainderOf, Wrapped;
  }

  /** A drive that is ready, which is one without a fault, homed, and in the right mode, starts to move iff it is
      enabled; one that moves is not disabled by that. */
  lemma StartsIffEnabled(s: State, r: Reading)
    requires r.status == 0 && s.homed && r.mode == 5
    ensures var t := Tick(s, r);
            && t.enable == s.enable && t.homed
            && (!s.started ==> (t.started <==> s.enable != 0) && t.offset == r.feedback)
  {
    hide DirectionOf, IndexOf, RemainderOf, Wrapped;
  }

  lemma {:induction false} StaysStopped(s: State, events: seq<Event>)
    requires !s.started && s.enable == 0
    requires forall i :: 0 <= i < |events| ==> events[i].SetEnable? ==> events[i].value == 0
    ensures !Run(s, events).started && Run(s, events).enable == 0
    decreases |events|
  {
    hide DirectionOf, IndexOf, RemainderOf, Wrapped, Advance;
    if events != [] {
      StaysStopped(s, events[..|events| - 1]);
    }
  }

  /** When the drive has a fault, loses its reference point, or leaves the mode, the motion stops at once, and
      does not go on by itself when the drive is ready again. */
  lemma NotResumed(s: State, r: Reading, events: seq<Event>)
    requires r.status != 0 || !s.homed || r.mode != 5
    requires forall i :: 0 <= i < |events| ==> events[i].SetEnable? ==> events[i].value == 0
    ensures !Run(Tick(s, r), events).started
  {
    StaysStopped(Tick(s, r), events);
    hide Run;
  }

  /** Bit 17 of the trajectory status says that the reference point is set, and bit 16 that a motion task is
      active: the drive counts as homed while the first holds and the second does not, whatever the others. */
  lemma HomedFromBits(s: State, above: int, referenced: bool, active: bool, below: nat)
    requires below < 0x1_0000
    ensures var trajectory := above * 0x4_0000 + (if referenced then 0x2_0000 else 0)
                              + (if active then 0x1_0000 else 0) + below;
            Main(s, trajectory).homed <==> referenced && !active
  {
    var two := (if referenced then 2 else 0) + if active then 1 else 0;
    assert (above * 0x4_0000 + two * 0x1_0000 + below) / 0x1_0000 == above * 4 + two;
  }

  // ---- The controller in place ---------------------------------------------------------------------

  class Controller {
    var homed: bool
    var started: bool
    var changed: bool
    var amplitude: int
    var period: int
    var step: int
    var direction: int
    var previous: int
    var offset: int
    var tableIndex: int
    var tableRemainder: int
    var newPosition: int
    var dprvar10: int
    var dprvar11: int
    var dprvar12: int

    ghost function Abs(): State
      reads this
    {
      State(homed, started, changed, amplitude, period, step, direction, previous, offset,
            tableIndex, tableRemainder, newPosition, dprvar10, dprvar11, dprvar12)
    }

    constructor (initialAmplitude: int, initialPeriod: int)
      ensures Abs() == State(false, false, false, initialAmplitude, initialPeriod, 0, 0, 0, 0, 0, 0, 0, 0,
                             initialAmplitude, initialPeriod)
    {
      homed, started, changed := false, false, false;
      dprvar10, dprvar11, dprvar12 := 0, initialAmplitude, initialPeriod;
      amplitude, period := initialAmplitude, initialPeriod;
      step, direction, previous, offset := 0, 0, 0, 0;
      tableIndex, tableRemainder, newPosition := 0, 0, 0;
    }

    method PlcMain(trajectory: int)
      modifies this`changed, this`homed
      ensures Abs() == Main(old(Abs()), trajectory)
    {
      if amplitude != dprvar11 {
        changed := true;
      }
      if period != dprvar12 {
        changed := true;
      }
      // Bit 16 says that a motion task is active, bit 17 that the reference point is set
      if trajectory / 0x1_0000 % 4 == 2 {
        homed := true;
      } else {
        homed := false;
      }
    }

    /** Where in the table the step is, and in which direction it is read. */
    method Locate()
      modifies this`tableIndex, this`tableRemainder, this`direction
      ensures tableIndex == IndexOf(step) && tableRemainder == RemainderOf(step) && direction == DirectionOf(step)
    {
      tableIndex := step / 0x400 % 0x800;
      tableRemainder := step % 0x400;
      direction := step / TURN % 2;
      if direction != 0 {
        tableIndex := 0x7FF - tableIndex;
        tableRemainder := 0x3FF - tableRemainder;
      }
    }

    method AdoptParameters()
      modifies this`amplitude, this`period, this`changed
      ensures !changed
      ensures amplitude == if old(changed) then dprvar11 else old(amplitude)
      ensures period == if old(changed) then dprvar12 else old(period)
    {
      if changed {
        amplitude := dprvar11;
        period := dprvar12;
        changed := false;
      }
    }

    /** At a change of direction the motion may stop, and parameters may change. */
    method Turn()
      modifies this`started, this`amplitude, this`period, this`changed
      ensures started == (old(started) && dprvar10 != 0) && !changed
      ensures amplitude == if old(changed) then dprvar11 else old(amplitude)
      ensures period == if old(changed) then dprvar12 else old(period)
    {
      if dprvar10 == 0 {
        started := false;
      }
      AdoptParameters();
    }

    /** Move on by the steps required and read the table. */
    method Generate(r: Reading)
      modifies this
      ensures Abs() == Advance(old(Abs()), r)
    {
      hide Wrapped, IndexOf, RemainderOf, DirectionOf;
      step := Wrapped(step + r.steps);
      Locate();
      if direction != previous {
        Turn();
      }
      previous := direction;
      newPosition := Wrapped(r.setpoint + offset);
    }

    method Plc1(r: Reading)
      modifies this
      ensures Abs() == Tick(old(Abs()), r)
    {
      hide Wrapped, Advance;
      if r.status == 0 && homed && r.mode == SINUSOID_MODE {
        if !started {
          if dprvar10 != 0 {
            started := true;
            step := 0;
            direction := 0;
            previous := 0;
          }
          AdoptParameters();
          offset := r.feedback;
        } else {
          Generate(r);
        }
      } else {
        dprvar10 := 0;
        started := false;
      }
    }
  }
}
