/**
 * The timer's digit display: four digit views (hours tens and ones,
 * minutes tens and ones) and a seconds view, any of which may be missing
 * from the layout.
 */
module Timer {
  import opened Wrappers
  import opened Decimal

  /** A typeface, by name. */
  type Typeface = string

  datatype Visibility = Visible | Invisible

  /** What a text view shows: its text, its colour, its typeface (null allowed) and its visibility. */
  datatype TextView = TextView(text: string, color: int, typeface: Option<Typeface>, visibility: Visibility)

  /** The digit argument that hides the hours-tens view. */
  const Hide: int := -2
  /** The digit argument that shows a gray "-". */
  const Dash: int := -1

  class TimerView {
    const thin: Typeface
    const white: int
    const gray: int

    var hoursTens: Option<TextView>
    var hoursOnes: Option<TextView>
    var minutesTens: Option<TextView>
    var minutesOnes: Option<TextView>
    var seconds: Option<TextView>
    var originalHoursTypeface: Option<Typeface>

    /** The constructor loads the thin typeface and the two colours; the views come with inflation. */
    constructor (thin: Typeface, white: int, gray: int)
      ensures this.thin == thin && this.white == white && this.gray == gray
      ensures hoursTens == None && hoursOnes == None && minutesTens == None && minutesOnes == None && seconds == None
      ensures originalHoursTypeface == None
    {
      this.thin, this.white, this.gray := thin, white, gray;
      hoursTens, hoursOnes, minutesTens, minutesOnes, seconds := None, None, None, None, None;
      originalHoursTypeface := None;
    }

    /**
     * onFinishInflate with the views the layout provides: the hours-ones
     * typeface is remembered, and the smallest unit shown (the seconds, or
     * else both minute digits) gets the thin typeface.
     */
    method OnFinishInflate(ht: Option<TextView>, ho: Option<TextView>, mt: Option<TextView>,
                           mo: Option<TextView>, s: Option<TextView>)
      modifies this
      ensures hoursTens == ht && hoursOnes == ho
      ensures originalHoursTypeface == if ho.Some? then ho.value.typeface else old(originalHoursTypeface)
      ensures seconds == if s.Some? then Some(s.value.(typeface := Some(thin))) else None
      ensures minutesTens == if s.None? && mt.Some? then Some(mt.value.(typeface := Some(thin))) else mt
      ensures minutesOnes == if s.None? && mo.Some? then Some(mo.value.(typeface := Some(thin))) else mo
    {
      hoursTens, minutesTens, hoursOnes, minutesOnes, seconds := ht, mt, ho, mo, s;
      if hoursOnes.Some? {
        originalHoursTypeface := hoursOnes.value.typeface;
      }
      if seconds.Some? {
        seconds := Some(seconds.value.(typeface := Some(thin)));
      } else {
        if minutesTens.Some? {
          minutesTens := Some(minutesTens.value.(typeface := Some(thin)));
        }
        if minutesOnes.Some? {
          minutesOnes := Some(minutesOnes.value.(typeface := Some(thin)));
        }
      }
    }

    /**
     * setTime: each present view is updated from its own argument only.
     * Hours-tens: -2 hides it and changes nothing else; -1 shows a gray "-"
     * in the thin typeface; any other value shows its decimal text in white
     * in the original hours typeface. Hours-ones is the same without the
     * hiding. The minute digits change only text and colour. The seconds
     * text is zero-padded to two digits.
     */
    method SetTime(hoursTensDigit: int, hoursOnesDigit: int, minutesTensDigit: int,
                   minutesOnesDigit: int, secs: int)
      modifies this`hoursTens, this`hoursOnes, this`minutesTens, this`minutesOnes, this`seconds
      ensures hoursTens.Some? == old(hoursTens).Some? && hoursOnes.Some? == old(hoursOnes).Some?
      ensures minutesTens.Some? == old(minutesTens).Some? && minutesOnes.Some? == old(minutesOnes).Some?
      ensures seconds.Some? == old(seconds).Some?
      ensures hoursTens.Some? ==>
        var was, now := old(hoursTens).value, hoursTens.value;
        if hoursTensDigit == Hide then now == was.(visibility := Invisible)
        else if hoursTensDigit == Dash then
          now == was.(text := "-", typeface := Some(thin), color := gray, visibility := Visible)
        else
          now == was.(text := IntToDecimal(hoursTensDigit), typeface := originalHoursTypeface,
                      color := white, visibility := Visible)
      ensures hoursOnes.Some? ==>
        var was, now := old(hoursOnes).value, hoursOnes.value;
        if hoursOnesDigit == Dash then now == was.(text := "-", typeface := Some(thin), color := gray)
        else now == was.(text := IntToDecimal(hoursOnesDigit), typeface := originalHoursTypeface, color := white)
      ensures minutesTens.Some? ==>
        var was, now := old(minutesTens).value, minutesTens.value;
        if minutesTensDigit == Dash then now == was.(text := "-", color := gray)
        else now == was.(text := IntToDecimal(minutesTensDigit), color := white)
      ensures minutesOnes.Some? ==>
        var was, now := old(minutesOnes).value, minutesOnes.value;
        if minutesOnesDigit == Dash then now == was.(text := "-", color := gray)
        else now == was.(text := IntToDecimal(minutesOnesDigit), color := white)
      ensures seconds.Some? ==> seconds.value == old(seconds).value.(text := ZeroPad2(secs))
    {
      ShowHoursTens(hoursTensDigit);
      ShowHoursOnes(hoursOnesDigit);
      minutesTens := ShowMinuteDigit(minutesTens, minutesTensDigit);
      minutesOnes := ShowMinuteDigit(minutesOnes, minutesOnesDigit);
      if seconds.Some? {
        seconds := Some(seconds.value.(text := ZeroPad2(secs)));
      }
    }

    /** The hours-tens part of setTime. */
    method ShowHoursTens(digit: int)
      modifies this`hoursTens
      ensures hoursTens.Some? == old(hoursTens).Some?
      ensures hoursTens.Some? ==>
        var was, now := old(hoursTens).value, hoursTens.value;
        if digit == Hide then now == was.(visibility := Invisible)
        else if digit == Dash then
          now == was.(text := "-", typeface := Some(thin), color := gray, visibility := Visible)
        else
          now == was.(text := IntToDecimal(digit), typeface := originalHoursTypeface,
                      color := white, visibility := Visible)
    {
      if hoursTens.Some? {
        var v := hoursTens.value;
        if digit == Hide {
          v := v.(visibility := Invisible);
        } else if digit == Dash {
          v := v.(text := "-", typeface := Some(thin), color := gray, visibility := Visible);
        } else {
          v := v.(text := IntToDecimal(digit), typeface := originalHoursTypeface,
                  color := white, visibility := Visible);
        }
        hoursTens := Some(v);
      }
    }

    /** The hours-ones part of setTime. */
    method ShowHoursOnes(digit: int)
      modifies this`hoursOnes
      ensures hoursOnes.Some? == old(hoursOnes).Some?
      ensures hoursOnes.Some? ==>
        var was, now := old(hoursOnes).value, hoursOnes.value;
        if digit == Dash then now == was.(text := "-", typeface := Some(thin), color := gray)
        else now == was.(text := IntToDecimal(digit), typeface := originalHoursTypeface, color := white)
    {
      if hoursOnes.Some? {
        var v := hoursOnes.value;
        if digit == Dash {
          v := v.(text := "-", typeface := Some(thin), color := gray);
        } else {
          v := v.(text := IntToDecimal(digit), typeface := originalHoursTypeface, color := white);
        }
        hoursOnes := Some(v);
      }
    }

    /** A minute digit view after setTime: only its text and colour change. */
    method ShowMinuteDigit(view: Option<TextView>, digit: int) returns (shown: Option<TextView>)
      ensures shown.Some? == view.Some?
      ensures shown.Some? ==>
        if digit == Dash then shown.value == view.value.(text := "-", color := gray)
        else shown.value == view.value.(text := IntToDecimal(digit), color := white)
    {
      shown := view;
      if view.Some? {
        var v := view.value;
        if digit == Dash {
          v := v.(text := "-", color := gray);
        } else {
          v := v.(color := white, text := IntToDecimal(digit));
        }
        shown := Some(v);
      }
    }
  }

  /**
   * setTime never changes the typeface or the visibility of a minute digit,
   * and the seconds text always reads back as the seconds value.
   */
  method SetTimeKeepsMinuteStyle(v: TimerView, ht: int, ho: int, mt: int, mo: int, secs: int)
    modifies v
    ensures old(v.minutesTens).Some? ==>
      v.minutesTens.Some? &&
      v.minutesTens.value.typeface == old(v.minutesTens).value.typeface &&
      v.minutesTens.value.visibility == old(v.minutesTens).value.visibility
    ensures old(v.minutesOnes).Some? ==>
      v.minutesOnes.Some? &&
      v.minutesOnes.value.typeface == old(v.minutesOnes).value.typeface &&
      v.minutesOnes.value.visibility == old(v.minutesOnes).value.visibility
    ensures v.seconds.Some? ==> ParseInt(v.seconds.value.text) == Some(secs) && |v.seconds.value.text| >= 2
  {
    v.SetTime(ht, ho, mt, mo, secs);
    ZeroPad2RoundTrip(secs);
  }
}
