# Desk clock views and world-clock store, modelled in Dafny

This project models four classes of the Android desk clock:

- **The analog clock view** (`AnalogClock.dfy`, module `DeskClock`). It covers:
  - how `onTimeChanged` turns the calendar's hour, minute and second into fractional hand positions;
  - the angles `onDraw` rotates each hand by;
  - the centred dial and hand bounds, computed with Java's truncating `/ 2`;
  - the shrink-only scale of `onMeasure` and `onDraw`;
  - the one-shot `mChanged` flag;
  - the attach/detach lifecycle that registers the time-change receiver once and queues the one-second tick;
  - `setTimeZone` and `enableSeconds`.

  The view is a class whose fields the methods update. The time source is a function parameter `clock` that maps a zone (None: the system zone) to a wall time.
- **A target of the multi-wave view** (`TargetDrawable.dfy`, module `MultiWaveView`). It covers:
  - the drawable, which is none, a plain drawable, or a state list of children with a selected child and a state array;
  - the two loops of `resizeDrawables`: the union size over the first `numDrawables` children, then sizing those children;
  - the constructor ordering, in which `setDrawable` runs while `mNumDrawables` is still 1;
  - `setState`, the `isActive` search and `isEnabled`;
  - `getWidth`/`getHeight`, the `draw` guard and placement;
  - the setters and getters.
- **The timer's digit display** (`TimerView.dfy`, module `Timer`):
  - `onFinishInflate` (the thin typeface on the smallest unit shown);
  - `setTime`: per digit view, the `-2` hide, the `-1` gray dash, and otherwise the `%d` / `%02d` text.
- **The world-clock city list** (`Cities.dfy`, module `WorldClock`):
  - `saveCitiesToSharedPrefs` and `readCitiesFromSharedPrefs`, over a preference store modelled as a map from keys to int or string values;
  - the main result: save a table in which every city has a name and a time zone and is filed under its own id; reading the store back then gives the same table, whatever the store held before.

Shared pieces:

- `Wrappers.dfy`: Option and Result.
- `Graphics.dfy`: `Rect` and Java's truncating halving.
- `Decimal.dfy`: the decimal text of `Integer.toString`, `%d` and `%02d`, with a parser and round-trip lemmas. `Cities.dfy` uses it for the per-index keys `"city_name_" + i` and `TimerView.dfy` for the digit text.

Java exceptions are modelled as follows:

- `ClassCastException` from reading a key of the wrong type is a `Failure` result.
- The null-pointer exception `resizeDrawables` hits with fewer children than `mNumDrawables` is an `ok == false` result.

## Model

| member | source | states |
|---|---|---|
| DeskClock.Positions | src/com/android/deskclock/AnalogClock.java:246-248 | the second position is the calendar second; for a valid time the minute position lies between the minute and the next, and the hour position between the hour and the next |
| DeskClock.HourAngle | src/com/android/deskclock/AnalogClock.java:210 | the hour hand turns 30 degrees per hour |
| DeskClock.MinuteAngle | src/com/android/deskclock/AnalogClock.java:211 | the minute hand turns 6 degrees per minute |
| DeskClock.SecondAngle | src/com/android/deskclock/AnalogClock.java:213 | the second hand turns 6 degrees per second |
| DeskClock.SecondHandAngle | src/com/android/deskclock/AnalogClock.java:210-213 | the second hand shows exactly the calendar second and turns 6 degrees per second |
| DeskClock.AnglesInRange | src/com/android/deskclock/AnalogClock.java:241-248 | for a valid time the minute position is in [0, 60) and its angle in [0, 360); the hour position is in [0, 24) and its angle in [0, 720) |
| DeskClock.AfternoonIsOneTurnMore | src/com/android/deskclock/AnalogClock.java:248 | the 24-hour value is not reduced: hour h + 12 is drawn exactly one full turn (360 degrees) past hour h |
| DeskClock.HalfPastThree | src/com/android/deskclock/AnalogClock.java:246-248 | 03:30:00 puts the hour hand at 105 degrees, the minute hand at 180 and the second hand at 0 |
| DeskClock.CenteredBounds | src/com/android/deskclock/AnalogClock.java:226-228 | the bounds are symmetric about (x, y) and have even width and height; each is within one of the intrinsic size, on the side truncation toward zero gives |
| DeskClock.AxisScale | src/com/android/deskclock/AnalogClock.java:152-158 | one axis's factor is in [0, 1]; it is below 1 exactly when the axis is constrained and smaller than the dial, and then it scales the dial to exactly that size |
| DeskClock.MeasureScale | src/com/android/deskclock/AnalogClock.java:149-160 | the scale is in [0, 1]; it is below 1 exactly when a constrained axis is smaller than the dial; the scaled dial fits every constrained axis and, when shrunk, exactly fills one constrained axis of positive dial size (so it is the smaller factor) |
| DeskClock.DrawScale | src/com/android/deskclock/AnalogClock.java:193-196 | a scale exists exactly when the view is narrower or shorter than the dial; it is below 1, the scaled dial fits both axes, and it fills one of them exactly |
| DeskClock.AnalogClock.constructor | src/com/android/deskclock/AnalogClock.java:76-100 | a new view is detached with nothing registered or queued, no zone override, seconds shown and the flag clear |
| DeskClock.AnalogClock.OnTimeChanged | src/com/android/deskclock/AnalogClock.java:234-252 | the calendar switches to the override zone if one is set; the hands become the positions of the clock's time in the calendar's zone; the changed flag is set |
| DeskClock.AnalogClock.Attach | src/com/android/deskclock/AnalogClock.java:102-129 | the receiver is registered exactly once, however often the view is attached; the calendar is reset to the override zone or the system zone; the hands are recomputed; one more tick is queued |
| DeskClock.AnalogClock.Detach | src/com/android/deskclock/AnalogClock.java:131-139 | afterwards nothing is registered and no tick is queued, whether or not the view was attached |
| DeskClock.AnalogClock.Tick | src/com/android/deskclock/AnalogClock.java:266-274 | a queued tick switches the calendar to the override zone if one is set, recomputes the hands in the calendar's zone and queues its successor; the override, the seconds flag and the lifecycle are untouched; with no tick queued nothing changes |
| DeskClock.AnalogClock.Receive | src/com/android/deskclock/AnalogClock.java:254-264 | a broadcast reaches the view only while the receiver is registered; a zone change resets the calendar's zone before the hands are recomputed, and the override still wins |
| DeskClock.AnalogClock.SizeChanged | src/com/android/deskclock/AnalogClock.java:166-170 | a size change sets the changed flag |
| DeskClock.AnalogClock.SetTimeZone | src/com/android/deskclock/AnalogClock.java:283-286 | the override is stored, and null clears it; the hands at once show the time in the override zone, or with no override in the zone the calendar already had |
| DeskClock.AnalogClock.EnableSeconds | src/com/android/deskclock/AnalogClock.java:288-290 | the second hand is hidden exactly when seconds are disabled |
| DeskClock.AnalogClock.Draw | src/com/android/deskclock/AnalogClock.java:172-219 | the flag is consumed; the pivot is the view's centre; the scale is DrawScale's; each hand is drawn at its angle, the second hand only when enabled; bounds are re-centred only when the flag was set |
| DeskClock.RedrawKeepsBounds | src/com/android/deskclock/AnalogClock.java:176-203 | a second draw without a time or size change leaves the dial and all three hand bounds where the first draw put them, even at another view size, and draws every hand at the same angle |
| DeskClock.AttachTwiceDetachOnce | src/com/android/deskclock/AnalogClock.java:103-139 | attaching twice and detaching once leaves no receiver and no queued tick |
| Graphics.JavaHalf | src/com/android/deskclock/AnalogClock.java:184-185 | `n / 2` truncates toward zero: twice the quotient is within one of n and lies between 0 and n |
| MultiWaveView.ChildrenUnion | src/com/android/deskclock/widget/multiwaveview/TargetDrawable.java:156-164 | the result is the size union of the first n children: at least 0, at least every child's size, and 0 or some child's size |
| MultiWaveView.SizeChildren | src/com/android/deskclock/widget/multiwaveview/TargetDrawable.java:170-176 | exactly the first n children get bounds (0, 0, w, h); sizes and the other bounds are unchanged |
| MultiWaveView.TargetDrawable.constructor | src/com/android/deskclock/widget/multiwaveview/TargetDrawable.java:89-93 | the drawable is resized with one child considered and set inactive before count is stored; the defaults hold |
| MultiWaveView.TargetDrawable.Copy | src/com/android/deskclock/widget/multiwaveview/TargetDrawable.java:105-111 | the copy shares the resource id, is resized with one child considered (not the other's count) and is inactive |
| MultiWaveView.TargetDrawable.SetDrawable | src/com/android/deskclock/widget/multiwaveview/TargetDrawable.java:95-103 | id 0 gives no drawable; the drawable is resized and, if resizing completes, set inactive; the resource id is kept |
| MultiWaveView.TargetDrawable.IsEnabled | src/com/android/deskclock/widget/multiwaveview/TargetDrawable.java:144-146 | an enabled target has a drawable, so its width and height are the drawable's intrinsic size |
| MultiWaveView.TargetDrawable.GetX | src/com/android/deskclock/widget/multiwaveview/TargetDrawable.java:203-205 | returns the translation setX stored |
| MultiWaveView.TargetDrawable.GetY | src/com/android/deskclock/widget/multiwaveview/TargetDrawable.java:207-209 | returns the translation setY stored |
| MultiWaveView.TargetDrawable.GetScaleX | src/com/android/deskclock/widget/multiwaveview/TargetDrawable.java:211-213 | returns the scale setScaleX stored |
| MultiWaveView.TargetDrawable.GetScaleY | src/com/android/deskclock/widget/multiwaveview/TargetDrawable.java:215-217 | returns the scale setScaleY stored |
| MultiWaveView.TargetDrawable.GetAlpha | src/com/android/deskclock/widget/multiwaveview/TargetDrawable.java:219-221 | returns the alpha setAlpha stored |
| MultiWaveView.TargetDrawable.GetPositionX | src/com/android/deskclock/widget/multiwaveview/TargetDrawable.java:231-233 | returns the position setPositionX stored |
| MultiWaveView.TargetDrawable.GetPositionY | src/com/android/deskclock/widget/multiwaveview/TargetDrawable.java:235-237 | returns the position setPositionY stored |
| MultiWaveView.TargetDrawable.GetResourceId | src/com/android/deskclock/widget/multiwaveview/TargetDrawable.java:264-266 | returns the resource id fixed at construction |
| MultiWaveView.TargetDrawable.SetState | src/com/android/deskclock/widget/multiwaveview/TargetDrawable.java:113-118 | only a state list takes the new state; nothing else changes |
| MultiWaveView.TargetDrawable.IsActive | src/com/android/deskclock/widget/multiwaveview/TargetDrawable.java:125-136 | true exactly when the drawable is a state list whose state array holds state_focused |
| MultiWaveView.TargetDrawable.ResizeDrawables | src/com/android/deskclock/widget/multiwaveview/TargetDrawable.java:153-181 | a state list gets the union bounds and its first numDrawables children get them too, with the last one selected; a plain drawable gets its intrinsic bounds; it fails exactly when a state list has too few children |
| MultiWaveView.TargetDrawable.SetX | src/com/android/deskclock/widget/multiwaveview/TargetDrawable.java:183-185 | getX returns the value set |
| MultiWaveView.TargetDrawable.SetY | src/com/android/deskclock/widget/multiwaveview/TargetDrawable.java:187-189 | getY returns the value set |
| MultiWaveView.TargetDrawable.SetScaleX | src/com/android/deskclock/widget/multiwaveview/TargetDrawable.java:191-193 | getScaleX returns the value set |
| MultiWaveView.TargetDrawable.SetScaleY | src/com/android/deskclock/widget/multiwaveview/TargetDrawable.java:195-197 | getScaleY returns the value set |
| MultiWaveView.TargetDrawable.SetAlpha | src/com/android/deskclock/widget/multiwaveview/TargetDrawable.java:199-201 | getAlpha returns the value set |
| MultiWaveView.TargetDrawable.SetPositionX | src/com/android/deskclock/widget/multiwaveview/TargetDrawable.java:223-225 | getPositionX returns the value set |
| MultiWaveView.TargetDrawable.SetPositionY | src/com/android/deskclock/widget/multiwaveview/TargetDrawable.java:227-229 | getPositionY returns the value set |
| MultiWaveView.TargetDrawable.SetEnabled | src/com/android/deskclock/widget/multiwaveview/TargetDrawable.java:260-262 | the target is then enabled exactly when the flag is set and it has a drawable |
| MultiWaveView.TargetDrawable.Width | src/com/android/deskclock/widget/multiwaveview/TargetDrawable.java:239-241 | 0 without a drawable, otherwise the drawable's intrinsic width |
| MultiWaveView.TargetDrawable.Height | src/com/android/deskclock/widget/multiwaveview/TargetDrawable.java:243-245 | 0 without a drawable, otherwise the drawable's intrinsic height |
| MultiWaveView.TargetDrawable.DrawPlacement | src/com/android/deskclock/widget/multiwaveview/TargetDrawable.java:247-258 | something is drawn exactly when the target is enabled; the drawable is then centred on position plus translation, scaled about the position, with the target's alpha |
| Timer.TimerView.constructor | src/com/android/deskclock/timer/TimerView.java:43-50 | the typeface and colours are loaded; no view is bound and no original hours typeface is known |
| Timer.TimerView.OnFinishInflate | src/com/android/deskclock/timer/TimerView.java:52-77 | the hours-ones typeface is remembered; the seconds view, or when it is missing both minute digits, gets the thin typeface |
| Timer.TimerView.SetTime | src/com/android/deskclock/timer/TimerView.java:80-135 | each present view changes from its own argument only: -2 hides the hours tens, -1 shows a gray dash, other values show `%d` in white; the seconds show `%02d` |
| Timer.TimerView.ShowHoursTens | src/com/android/deskclock/timer/TimerView.java:82-99 | hide on -2 (nothing else changes), a thin gray dash on -1, otherwise the digit text in white in the original typeface, made visible |
| Timer.TimerView.ShowHoursOnes | src/com/android/deskclock/timer/TimerView.java:100-112 | a thin gray dash on -1, otherwise the digit text in white in the original typeface |
| Timer.TimerView.ShowMinuteDigit | src/com/android/deskclock/timer/TimerView.java:113-130 | a minute digit changes only its text and colour: a gray dash on -1, otherwise the digit text in white |
| Timer.SetTimeKeepsMinuteStyle | src/com/android/deskclock/timer/TimerView.java:113-134 | setTime never changes a minute digit's typeface or visibility, and the seconds text is two or more characters that parse back to the seconds |
| Decimal.NatToDecimalShape | src/com/android/deskclock/timer/TimerView.java:93 | decimal text is non-empty and all digits, one digit exactly below ten, with no leading zero |
| Decimal.DecimalRoundTrip | src/com/android/deskclock/timer/TimerView.java:93 | the digits of a natural number read back as that number |
| Decimal.DecimalInjective | src/com/android/deskclock/worldclock/Cities.java:83-84 | two indices give the same decimal text exactly when they are equal |
| Decimal.IntToDecimal | src/com/android/deskclock/timer/TimerView.java:93 | `%d` text is non-empty, starts with '-' exactly for negatives, and is otherwise all digits |
| Decimal.IntToDecimalRoundTrip | src/com/android/deskclock/timer/TimerView.java:107 | `%d` text, sign included, parses back to its number |
| Decimal.ZeroPad2 | src/com/android/deskclock/timer/TimerView.java:133 | `%02d` text is at least two characters; from 10 up and for negatives it is the `%d` text |
| Decimal.ZeroPad2RoundTrip | src/com/android/deskclock/timer/TimerView.java:133 | `%02d` text parses back to its number; a single digit gets a leading '0' |
| WorldClock.KeysDistinct | src/com/android/deskclock/worldclock/Cities.java:61-62 | two per-index keys are equal exactly when prefix and index are; none equals "number_of_cities" |
| WorldClock.ReadAll | src/com/android/deskclock/worldclock/Cities.java:50-51 | a successful read of n indices yields n cities |
| WorldClock.ReadAllAt | src/com/android/deskclock/worldclock/Cities.java:50-51 | the i-th city read is the city stored at index i |
| WorldClock.ReadAllFailureSticks | src/com/android/deskclock/worldclock/Cities.java:50-51 | once an index fails to read, reading more indices fails with the same error |
| WorldClock.ReadAllStep | src/com/android/deskclock/worldclock/Cities.java:50-54 | one more index extends the read by its city and the table by keeping that city |
| WorldClock.KeepAll | src/com/android/deskclock/worldclock/Cities.java:52-54 | the table has no more entries than cities read; each entry is complete and filed under its own id |
| WorldClock.LastKept | src/com/android/deskclock/worldclock/Cities.java:52-53 | the last index whose city is complete with that id, or -1 exactly when there is none |
| WorldClock.KeepAllLastWins | src/com/android/deskclock/worldclock/Cities.java:50-55 | an id is in the table exactly when some complete city carries it, and it maps to the last such city |
| WorldClock.ReadTable | src/com/android/deskclock/worldclock/Cities.java:46-58 | a successful read had a readable count, holds at most max(count, 0) cities, and files each complete city under its own id |
| WorldClock.ReadWithoutCount | src/com/android/deskclock/worldclock/Cities.java:47-49 | a missing count reads as -1; a missing or non-positive count gives an empty table |
| WorldClock.ReadCities | src/com/android/deskclock/worldclock/Cities.java:46-58 | the index loop gives exactly the table of the read specification, errors included |
| WorldClock.InOrder | src/com/android/deskclock/worldclock/Cities.java:35-39 | the i-th saved city is the table's value under the i-th key of the iteration order |
| WorldClock.WritePrefixElsewhere | src/com/android/deskclock/worldclock/Cities.java:37-42 | writing cities leaves every key that is not one of their per-index keys as it was |
| WorldClock.WritePrefixFields | src/com/android/deskclock/worldclock/Cities.java:37-42 | after the loop each field of index i reads back the value the i-th city wrote |
| WorldClock.WritePrefixReadsBack | src/com/android/deskclock/worldclock/Cities.java:37-42 | after the loop index i reads back the i-th city written |
| WorldClock.SaveCities | src/com/android/deskclock/worldclock/Cities.java:31-44 | the store holds the table's size as the count and, at index i, the city under the i-th key of the iteration order |
| WorldClock.SavedCitiesReadBack | src/com/android/deskclock/worldclock/Cities.java:31-42 | every saved city reads back at its own index |
| WorldClock.SavedCount | src/com/android/deskclock/worldclock/Cities.java:34 | the saved count reads back as written; no per-index key overwrites it |
| WorldClock.ReadAllOfSaved | src/com/android/deskclock/worldclock/Cities.java:46-51 | reading the first n indices of a saved store gives the first n cities saved |
| WorldClock.KeepAllInOrder | src/com/android/deskclock/worldclock/Cities.java:52-54 | keeping complete cities filed under their ids, in any order of keys, rebuilds exactly those entries |
| WorldClock.SaveThenRead | src/com/android/deskclock/worldclock/Cities.java:31-58 | saving a table of complete cities, each under its own id, then reading gives the same table, whatever stale entries the store held |

## Left out

- Drawing onto the canvas is not modelled: `Canvas` save/scale/rotate/restore, the dial jewel (`mDotRadius`, `mDotPaint`), and `Drawable.draw` / `setAlpha(round(alpha * 255))`. `Draw` and `DrawPlacement` return the values handed to the canvas instead.
- Message delivery is abstracted. The `Handler` queue and broadcast delivery are counters (`pendingTicks`, `registrations`). The one-second delay, `invalidate` and threading are not modelled.
- The time source and zone resolution are not modelled. `Time.setToNow`, `switchTimezone` and `TimeZone.getTimeZone(tz).getID()` are the `clock` parameter and the resolved `zone` argument.
- Leap seconds (60 and 61) are outside `ValidTime`.
- Floating point is not modelled: `float` arithmetic is exact `real` arithmetic, and the `(int)` casts of the scaled sizes are left out.
- `MeasureSpec` decoding and `resolveSizeAndState` are not modelled; `MeasureScale` takes the mode and size already decoded.
- `updateContentDescription`, `updatePadding` and logging (`dumpCities`, `Log.v`) have no effect the model tracks, so they are left out.
- DeskClock.AnalogClock.constructor requires a dial of positive size. The scale ratios are exact reals, which have no value for a division by zero; Java's float division would give infinity there.
- MultiWaveView.TargetDrawable.SetState only stores the state array. How `StateListDrawable` picks the child matching a state is framework code and is not part of this model.
- Resizing with fewer children than `mNumDrawables` is not modelled as the NPE it is in Java. Selecting a missing child leaves none selected and `getCurrent()` returns null; the model records `current == -1` and reports `ok == false`.
- MultiWaveView.TargetDrawable.constructor and MultiWaveView.TargetDrawable.Copy require that this resize completes, since the object is not created when it throws.
- A state list's intrinsic size is modelled as that of its selected child. Constant-size containers are not modelled.
- `Drawable.mutate()` and the sharing of drawables between targets are left out: drawables are values. `DrawableWithAlpha` is unused by the modelled code and is left out.
- The layout of a saved city is not part of this model, because `CityObj` is not part of it. The model assumes `CityObj` writes and reads `city_name_`, `city_tz_` and `city_id_` + index, reading in that order.
- `editor.apply()` is taken as committing at once; its asynchrony is not modelled.
- `String.format` is modelled with ASCII digits; locale-specific digits are not modelled.
- The hour hand is not reduced modulo 12. The code keeps the 24-hour value in `mHour`, and the model follows the code (AfternoonIsOneTurnMore): 15:30 is drawn at 465 degrees, one full turn past 03:30.
