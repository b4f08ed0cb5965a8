/** Qt's QPropertyAnimation as far as the theme drives it: a direction, a
    running state, a current time and a duration. Ticks, the easing curve and
    the property writes that follow them belong to Qt and are not modelled. */
module Animation {

  datatype Direction = Forward | Backward

  /** QAbstractAnimation::State. The theme never pauses an animation. */
  datatype State = Stopped | Running

  /** The observable state of an animation. */
  datatype Snapshot = Snapshot(direction: Direction, state: State, currentTime: int, duration: int)

  /** Where QAbstractAnimation::start() puts the current time of a stopped
      animation: the start for a forward run, the end for a backward one. */
  function StartTime(d: Direction, duration: int): int
  {
    if d == Forward then 0 else duration
  }

  /** Where a run in direction `d` ends. */
  function EndTime(d: Direction, duration: int): int
  {
    if d == Forward then duration else 0
  }

  /** The rule both the button (hover) and the decoration (activation) follow:
      point the animation toward the new condition, and start it only if it is
      not already running, so that a running animation merely turns around. */
  function Retargeted(a: Snapshot, forward: bool): (r: Snapshot)
    ensures r.state == Running
    ensures r.direction == Forward <==> forward
    ensures r.duration == a.duration
    ensures a.state == Running ==> r.currentTime == a.currentTime
    ensures a.state == Stopped ==> r.currentTime == StartTime(r.direction, a.duration)
  {
    var d := if forward then Forward else Backward;
    if a.state == Running then a.(direction := d)
    else a.(direction := d, state := Running, currentTime := StartTime(d, a.duration))
  }

  /** Asking twice for the same direction is the same as asking once. */
  lemma RetargetIdempotent(a: Snapshot, forward: bool)
    ensures Retargeted(Retargeted(a, forward), forward) == Retargeted(a, forward)
  {
  }

  /** Turning a finished animation around starts it where it rests, so the
      colour it drives does not jump. */
  lemma ReverseFromRestIsContinuous(a: Snapshot)
    requires a.state == Stopped && a.currentTime == EndTime(a.direction, a.duration)
    ensures Retargeted(a, a.direction == Backward).currentTime == a.currentTime
  {
  }

  class PropertyAnimation {
    var direction: Direction
    var state: State
    var currentTime: int
    var duration: int

    /** A new QPropertyAnimation: forward, stopped, at time 0, lasting 250 ms. */
    constructor ()
      ensures View() == Snapshot(Forward, Stopped, 0, 250)
    {
      direction, state, currentTime, duration := Forward, Stopped, 0, 250;
    }

    function View(): Snapshot
      reads this
    {
      Snapshot(direction, state, currentTime, duration)
    }

    /** QAbstractAnimation::setDirection: a stopped animation that changes
        direction is moved to the start of a run in the new direction; a
        running one keeps its current time. */
    method SetDirection(d: Direction)
      modifies this
      ensures old(state) == Stopped && d != old(direction) ==>
        View() == old(View()).(direction := d, currentTime := StartTime(d, duration))
      ensures !(old(state) == Stopped && d != old(direction)) ==> View() == old(View()).(direction := d)
    {
      if state == Stopped && d != direction {
        currentTime := StartTime(d, duration);
      }
      direction := d;
    }

    /** QVariantAnimation::setDuration: a negative duration is refused. */
    method SetDuration(ms: int)
      modifies this
      ensures View() == if ms >= 0 then old(View()).(duration := ms) else old(View())
    {
      if ms >= 0 {
        duration := ms;
      }
    }

    /** QAbstractAnimation::start: nothing if running; otherwise the time is
        reset to the start of a run in the current direction. */
    method Start()
      modifies this
      ensures old(state) == Running ==> View() == old(View())
      ensures old(state) == Stopped ==>
        View() == old(View()).(state := Running, currentTime := StartTime(direction, duration))
    {
      if state != Running {
        currentTime := StartTime(direction, duration);
        state := Running;
      }
    }
  }
}
