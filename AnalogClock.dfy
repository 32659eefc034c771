/**
 * The analog clock view: hand positions from the wall time, the angles the
 * hands are drawn at, the centred bounds of the dial and hands, the
 * shrink-only scale, the one-shot "changed" flag and the attach/detach
 * lifecycle that guards the time-change receiver and the one-second tick.
 *
 * Angles and scale factors are reals; the time source is a parameter
 * `clock` that gives the wall time in a zone (None: the system zone).
 */
module DeskClock {
  import opened Wrappers
  import opened Graphics

  /** The fields of android.text.format.Time the view reads. */
  datatype WallTime = WallTime(hour: int, minute: int, second: int)

  predicate ValidTime(t: WallTime) {
    0 <= t.hour < 24 && 0 <= t.minute < 60 && 0 <= t.second < 60
  }

  /** The fractional hand positions: mSeconds, mMinutes, mHour. */
  datatype Hands = Hands(seconds: real, minutes: real, hour: real)

  /** The positions onTimeChanged derives from a wall time; the hour is not reduced mod 12. */
  function Positions(t: WallTime): (hands: Hands)
    ensures hands.seconds == t.second as real
    ensures ValidTime(t) ==> t.minute as real <= hands.minutes < t.minute as real + 1.0
    ensures ValidTime(t) ==> t.hour as real <= hands.hour < t.hour as real + 1.0
  {
    var minutes := t.minute as real + t.second as real / 60.0;
    Hands(t.second as real, minutes, t.hour as real + minutes / 60.0)
  }

  /** The hour hand turns 30 degrees per hour. */
  function HourAngle(hour: real): (angle: real)
    ensures angle == 30.0 * hour
  {
    hour / 12.0 * 360.0
  }

  /** The minute hand turns 6 degrees per minute. */
  function MinuteAngle(minutes: real): (angle: real)
    ensures angle == 6.0 * minutes
  {
    minutes / 60.0 * 360.0
  }

  /** The second hand turns 6 degrees per second. */
  function SecondAngle(seconds: real): (angle: real)
    ensures angle == 6.0 * seconds
  {
    seconds / 60.0 * 360.0
  }

  /** The second hand moves 6 degrees per second and shows exactly the calendar second. */
  lemma SecondHandAngle(t: WallTime)
    ensures Positions(t).seconds == t.second as real
    ensures SecondAngle(Positions(t).seconds) == 6.0 * t.second as real
  {
  }

  /** For a valid time the minute hand stays below one turn and the hour hand below two. */
  lemma AnglesInRange(t: WallTime)
    requires ValidTime(t)
    ensures 0.0 <= Positions(t).minutes < 60.0
    ensures 0.0 <= MinuteAngle(Positions(t).minutes) < 360.0
    ensures 0.0 <= Positions(t).hour < 24.0
    ensures 0.0 <= HourAngle(Positions(t).hour) < 720.0
  {
  }

  /** The 24-hour value is kept: hour h + 12 is drawn exactly one full turn past hour h. */
  lemma AfternoonIsOneTurnMore(t: WallTime)
    ensures HourAngle(Positions(t.(hour := t.hour + 12)).hour) == HourAngle(Positions(t).hour) + 360.0
  {
  }

  /** 03:30:00 draws the hour hand at 105 degrees, the minute hand at 180 and the second hand at 0. */
  lemma HalfPastThree()
    ensures var p := Positions(WallTime(3, 30, 0));
      HourAngle(p.hour) == 105.0 && MinuteAngle(p.minutes) == 180.0 && SecondAngle(p.seconds) == 0.0
  {
  }

  /** Bounds of size (w, h) centred on (x, y), with Java's truncating `w / 2`. */
  function CenteredBounds(x: int, y: int, w: int, h: int): (r: Rect)
    ensures r.left + r.right == 2 * x && r.top + r.bottom == 2 * y
    ensures (r.right - r.left) % 2 == 0 && (r.bottom - r.top) % 2 == 0
    ensures if w >= 0 then w - 1 <= r.right - r.left <= w else w <= r.right - r.left <= w + 1
    ensures if h >= 0 then h - 1 <= r.bottom - r.top <= h else h <= r.bottom - r.top <= h + 1
  {
    Rect(x - JavaHalf(w), y - JavaHalf(h), x + JavaHalf(w), y + JavaHalf(h))
  }

  /** The mode of a MeasureSpec. */
  datatype MeasureMode = Unspecified | Exactly | AtMost

  function Min(a: real, b: real): real {
    if a <= b then a else b
  }

  /** onMeasure's per-axis factor: below 1 only for a constrained size smaller than the dial. */
  function AxisScale(mode: MeasureMode, size: nat, dial: int): (scale: real)
    ensures 0.0 <= scale <= 1.0
    ensures scale < 1.0 <==> mode != Unspecified && size < dial
    ensures scale < 1.0 ==> scale * dial as real == size as real
  {
    if mode != Unspecified && size < dial then
      RatioFacts(size, dial);
      size as real / dial as real
    else 1.0
  }

  /** onMeasure's scale: the smaller axis factor. It never enlarges the dial. */
  function MeasureScale(widthMode: MeasureMode, widthSize: nat, heightMode: MeasureMode, heightSize: nat,
                        dialWidth: int, dialHeight: int): (scale: real)
    ensures 0.0 <= scale <= 1.0
    ensures scale < 1.0 <==> (widthMode != Unspecified && widthSize < dialWidth) ||
                             (heightMode != Unspecified && heightSize < dialHeight)
    ensures widthMode != Unspecified && dialWidth > 0 ==> scale * dialWidth as real <= widthSize as real
    ensures heightMode != Unspecified && dialHeight > 0 ==> scale * dialHeight as real <= heightSize as real
    ensures scale < 1.0 ==>
      (widthMode != Unspecified && dialWidth > 0 && scale * dialWidth as real == widthSize as real) ||
      (heightMode != Unspecified && dialHeight > 0 && scale * dialHeight as real == heightSize as real)
  {
    Min(AxisScale(widthMode, widthSize, dialWidth), AxisScale(heightMode, heightSize, dialHeight))
  }

  /**
   * onDraw's scale: present only when the view is narrower or shorter than
   * the dial; then the scaled dial fits and fills the view along one axis.
   */
  function DrawScale(availableWidth: nat, availableHeight: nat, w: int, h: int): (scale: Option<real>)
    requires w > 0 && h > 0
    ensures scale.Some? <==> availableWidth < w || availableHeight < h
    ensures scale.Some? ==> 0.0 <= scale.value < 1.0
    ensures scale.Some? ==> scale.value * w as real <= availableWidth as real &&
                            scale.value * h as real <= availableHeight as real
    ensures scale.Some? ==> scale.value * w as real == availableWidth as real ||
                            scale.value * h as real == availableHeight as real
  {
    if availableWidth < w || availableHeight < h then
      var rw, rh := availableWidth as real / w as real, availableHeight as real / h as real;
      RatioFacts(availableWidth, w);
      RatioFacts(availableHeight, h);
      ScaleFits(Min(rw, rh), availableWidth, w);
      ScaleFits(Min(rw, rh), availableHeight, h);
      Some(Min(rw, rh))
    else None
  }

  lemma RatioFacts(n: nat, d: int)
    requires d > 0
    ensures (n as real / d as real) * d as real == n as real
    ensures 0.0 <= n as real / d as real
    ensures n < d <==> n as real / d as real < 1.0
  {
  }

  lemma ScaleFits(s: real, n: nat, d: int)
    requires d > 0 && 0.0 <= s <= n as real / d as real
    ensures s * d as real <= n as real
  {
    RatioFacts(n, d);
    assert s * d as real <= (n as real / d as real) * d as real;
  }

  /** What one onDraw hands to the canvas: the pivot, the scale, and the angle of each hand drawn. */
  datatype Frame = Frame(x: int, y: int, scale: Option<real>,
                         hourAngle: real, minuteAngle: real, secondAngle: Option<real>)

  /** The intrinsic size of a drawable. */
  datatype Size = Size(width: int, height: int)

  class AnalogClock {
    const dial: Size
    const hourHand: Size
    const minuteHand: Size
    const secondHand: Size

    var attached: bool
    /** How many times the time-change receiver is registered with the context. */
    var registrations: nat
    /** How many clock-tick callbacks wait in the handler's queue. */
    var pendingTicks: nat

    var seconds: real
    var minutes: real
    var hour: real
    var changed: bool
    var timeZoneId: Option<string>
    /** The zone of mCalendar; None is the system default zone. */
    var calendarZone: Option<string>
    var noSeconds: bool

    var dialBounds: Rect
    var hourBounds: Rect
    var minuteBounds: Rect
    var secondBounds: Rect

    /** The receiver is registered exactly while attached, and ticks are queued only while attached. */
    predicate Valid()
      reads this
    {
      dial.width > 0 && dial.height > 0 &&
      registrations == (if attached then 1 else 0) &&
      (!attached ==> pendingTicks == 0)
    }

    constructor (dial: Size, hourHand: Size, minuteHand: Size, secondHand: Size)
      requires dial.width > 0 && dial.height > 0
      ensures Valid() && !attached && !changed && !noSeconds
      ensures timeZoneId == None && calendarZone == None
      ensures this.dial == dial && this.hourHand == hourHand
      ensures this.minuteHand == minuteHand && this.secondHand == secondHand
    {
      this.dial, this.hourHand, this.minuteHand, this.secondHand := dial, hourHand, minuteHand, secondHand;
      attached, registrations, pendingTicks := false, 0, 0;
      seconds, minutes, hour := 0.0, 0.0, 0.0;
      changed := false;
      timeZoneId, calendarZone := None, None;
      noSeconds := false;
      dialBounds, hourBounds, minuteBounds, secondBounds := Rect(0, 0, 0, 0), Rect(0, 0, 0, 0), Rect(0, 0, 0, 0), Rect(0, 0, 0, 0);
    }

    /** Recomputes the hands from the calendar, switched to the override zone when one is set. */
    method OnTimeChanged(clock: Option<string> -> WallTime)
      modifies this`calendarZone, this`seconds, this`minutes, this`hour, this`changed
      ensures calendarZone == if timeZoneId.Some? then timeZoneId else old(calendarZone)
      ensures Hands(seconds, minutes, hour) == Positions(clock(calendarZone))
      ensures changed
    {
      if timeZoneId.Some? {
        calendarZone := timeZoneId;
      }
      var t := clock(calendarZone);
      seconds := t.second as real;
      minutes := t.minute as real + t.second as real / 60.0;
      hour := t.hour as real + minutes / 60.0;
      changed := true;
    }

    /** onAttachedToWindow: registers the receiver once, resets the calendar, recomputes, queues a tick. */
    method Attach(clock: Option<string> -> WallTime)
      requires Valid()
      modifies this
      ensures Valid() && attached && registrations == 1
      ensures pendingTicks == old(pendingTicks) + 1
      ensures calendarZone == timeZoneId && timeZoneId == old(timeZoneId)
      ensures Hands(seconds, minutes, hour) == Positions(clock(timeZoneId)) && changed
      ensures noSeconds == old(noSeconds)
      ensures unchanged(this`dialBounds, this`hourBounds, this`minuteBounds, this`secondBounds)
    {
      if !attached {
        attached := true;
        registrations := registrations + 1;
      }
      calendarZone := None;
      OnTimeChanged(clock);
      pendingTicks := pendingTicks + 1;
    }

    /** onDetachedFromWindow: only an attached view unregisters and drops its queued ticks. */
    method Detach()
      requires Valid()
      modifies this`attached, this`registrations, this`pendingTicks
      ensures Valid() && !attached && registrations == 0 && pendingTicks == 0
    {
      if attached {
        registrations := registrations - 1;
        pendingTicks := 0;
        attached := false;
      }
    }

    /** The handler runs one queued tick, if any: recompute, then queue the next one. */
    method Tick(clock: Option<string> -> WallTime)
      requires Valid()
      modifies this`calendarZone, this`seconds, this`minutes, this`hour, this`changed
      ensures Valid()
      ensures old(pendingTicks) == 0 ==> unchanged(this)
      ensures old(pendingTicks) > 0 ==>
        calendarZone == (if timeZoneId.Some? then timeZoneId else old(calendarZone)) &&
        changed && Hands(seconds, minutes, hour) == Positions(clock(calendarZone))
    {
      if pendingTicks > 0 {
        OnTimeChanged(clock);
      }
    }

    /**
     * The receiver gets a time tick, a time change or a time-zone change;
     * it is delivered only while registered. A time-zone change gives the
     * calendar the resolved zone `zone` before recomputing.
     */
    method Receive(zoneChanged: bool, zone: string, clock: Option<string> -> WallTime)
      requires Valid()
      modifies this`calendarZone, this`seconds, this`minutes, this`hour, this`changed
      ensures Valid()
      ensures old(registrations) == 0 ==> unchanged(this)
      ensures old(registrations) > 0 ==>
        calendarZone == (if timeZoneId.Some? then timeZoneId else if zoneChanged then Some(zone) else old(calendarZone)) &&
        changed && Hands(seconds, minutes, hour) == Positions(clock(calendarZone))
    {
      if registrations > 0 {
        if zoneChanged {
          calendarZone := Some(zone);
        }
        OnTimeChanged(clock);
      }
    }

    /** onSizeChanged. */
    method SizeChanged()
      modifies this`changed
      ensures changed
    {
      changed := true;
    }

    /**
     * setTimeZone: stores the id (null clears the override) and recomputes at
     * once, in that zone; with no id the calendar keeps the zone it had.
     */
    method SetTimeZone(id: Option<string>, clock: Option<string> -> WallTime)
      modifies this`timeZoneId, this`calendarZone, this`seconds, this`minutes, this`hour, this`changed
      ensures timeZoneId == id
      ensures calendarZone == if id.Some? then id else old(calendarZone)
      ensures Hands(seconds, minutes, hour) == Positions(clock(calendarZone)) && changed
    {
      timeZoneId := id;
      OnTimeChanged(clock);
    }

    /** enableSeconds: only hides or shows the second hand. */
    method EnableSeconds(enable: bool)
      modifies this`noSeconds
      ensures noSeconds == !enable
    {
      noSeconds := !enable;
    }

    /**
     * onDraw on a view of the given size: consumes the changed flag, re-centres
     * the dial and hand bounds only if it was set, and draws every hand at its
     * angle (the second hand only when seconds are enabled).
     */
    method Draw(availableWidth: nat, availableHeight: nat) returns (frame: Frame)
      requires Valid()
      modifies this`changed, this`dialBounds, this`hourBounds, this`minuteBounds, this`secondBounds
      ensures Valid() && !changed
      ensures frame.x == availableWidth / 2 && frame.y == availableHeight / 2
      ensures frame.scale == DrawScale(availableWidth, availableHeight, dial.width, dial.height)
      ensures frame.hourAngle == HourAngle(hour) && frame.minuteAngle == MinuteAngle(minutes)
      ensures frame.secondAngle == if noSeconds then None else Some(SecondAngle(seconds))
      ensures if old(changed) then
          dialBounds == CenteredBounds(frame.x, frame.y, dial.width, dial.height) &&
          hourBounds == CenteredBounds(frame.x, frame.y, hourHand.width, hourHand.height) &&
          minuteBounds == CenteredBounds(frame.x, frame.y, minuteHand.width, minuteHand.height) &&
          secondBounds == (if noSeconds then old(secondBounds)
                           else CenteredBounds(frame.x, frame.y, secondHand.width, secondHand.height))
        else unchanged(this`dialBounds, this`hourBounds, this`minuteBounds, this`secondBounds)
    {
      var wasChanged := changed;
      if wasChanged {
        changed := false;
      }
      var x := availableWidth / 2;
      var y := availableHeight / 2;
      var scale := DrawScale(availableWidth, availableHeight, dial.width, dial.height);
      if wasChanged {
        dialBounds := CenteredBounds(x, y, dial.width, dial.height);
      }
      var hourAngle := HourAngle(hour);
      if wasChanged {
        hourBounds := CenteredBounds(x, y, hourHand.width, hourHand.height);
      }
      var minuteAngle := MinuteAngle(minutes);
      if wasChanged {
        minuteBounds := CenteredBounds(x, y, minuteHand.width, minuteHand.height);
      }
      var secondAngle: Option<real> := None;
      if !noSeconds {
        secondAngle := Some(SecondAngle(seconds));
        if wasChanged {
          secondBounds := CenteredBounds(x, y, secondHand.width, secondHand.height);
        }
      }
      frame := Frame(x, y, scale, hourAngle, minuteAngle, secondAngle);
    }
  }

  /**
   * Drawing twice with no time or size change in between: the second draw
   * keeps every bound the first one left, even at another size, and draws the
   * hands at the same angles.
   */
  method RedrawKeepsBounds(c: AnalogClock, w: nat, h: nat, w2: nat, h2: nat) returns (first: Frame, second: Frame)
    requires c.Valid()
    modifies c
    ensures c.Valid() && !c.changed
    ensures c.dialBounds == if old(c.changed) then CenteredBounds(w / 2, h / 2, c.dial.width, c.dial.height)
                            else old(c.dialBounds)
    ensures c.hourBounds == if old(c.changed) then CenteredBounds(w / 2, h / 2, c.hourHand.width, c.hourHand.height)
                            else old(c.hourBounds)
    ensures c.minuteBounds == if old(c.changed) then CenteredBounds(w / 2, h / 2, c.minuteHand.width, c.minuteHand.height)
                              else old(c.minuteBounds)
    ensures c.secondBounds == if old(c.changed) && !c.noSeconds
                              then CenteredBounds(w / 2, h / 2, c.secondHand.width, c.secondHand.height)
                              else old(c.secondBounds)
    ensures second.hourAngle == first.hourAngle && second.minuteAngle == first.minuteAngle
    ensures second.secondAngle == first.secondAngle
  {
    first := c.Draw(w, h);
    second := c.Draw(w2, h2);
  }

  /**
   * However many times the view is attached, one detach leaves no receiver
   * and no queued tick, so a later tick finds nothing to run.
   */
  method AttachTwiceDetachOnce(c: AnalogClock, clock: Option<string> -> WallTime)
    requires c.Valid()
    modifies c
    ensures c.Valid() && !c.attached && c.registrations == 0 && c.pendingTicks == 0
  {
    c.Attach(clock);
    c.Attach(clock);
    assert c.registrations == 1;
    c.Detach();
    var hands := Hands(c.seconds, c.minutes, c.hour);
    c.Tick(clock);
    assert Hands(c.seconds, c.minutes, c.hour) == hands;
  }
}
