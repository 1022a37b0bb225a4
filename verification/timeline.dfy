/** The timeline scrubber: a slider whose position selects the sample of a
    date-indexed series nearest to the date the position stands for, by
    dragging, by auto-play one animation frame at a time, or by rewinding. */
module Timeline {
  import opened Maybe

  /** One timeline sample; its date is the parsed timestamp in milliseconds. */
  datatype TimelineData = TimelineData(date: int)

  /** The `dateSelected` event the scrubber dispatches. */
  datatype Event = DateSelected(date: int)

  const MsPerDay: int := 1000 * 60 * 60 * 24

  /** `calculateNumOfDays`: the span from the first to the last sample in
      days, rounded as Math.round does (halves go up). Here None is not a
      value: with no samples, reading `data[0].date` throws a TypeError
      and the function returns nothing. */
  function NumOfDays(data: seq<TimelineData>): (r: Option<int>)
    ensures r.None? <==> data == []
    ensures r.Some? ==>
      var span := data[|data| - 1].date - data[0].date;
      2 * r.value * MsPerDay - MsPerDay <= 2 * span < 2 * r.value * MsPerDay + MsPerDay
  {
    if data == [] then None
    else Some((data[|data| - 1].date - data[0].date + MsPerDay / 2) / MsPerDay)
  }

  /** A span of a whole number of days gives exactly that number. */
  lemma NumOfDaysWhole(data: seq<TimelineData>, days: int)
    requires data != [] && data[|data| - 1].date - data[0].date == days * MsPerDay
    ensures NumOfDays(data) == Some(days)
  {
  }

  /** `Math.max(0, Math.min(xPos, sliderWidth))` with xPos the cursor
      offset less the handle radius. A NaN width (None) makes both NaN; a
      negative width (a narrow container) pins the position to 0. */
  function DragPosition(eventX: real, handleRadius: real, sliderWidth: Option<real>): (r: Option<real>)
    ensures r.None? <==> sliderWidth.None?
    ensures r.Some? ==> 0.0 <= r.value
    ensures r.Some? && 0.0 <= sliderWidth.value ==> r.value <= sliderWidth.value
    ensures r.Some? && 0.0 <= eventX - handleRadius <= sliderWidth.value ==> r.value == eventX - handleRadius
    ensures r.Some? && eventX - handleRadius < 0.0 ==> r.value == 0.0
    ensures r.Some? && 0.0 <= sliderWidth.value < eventX - handleRadius ==> r.value == sliderWidth.value
    ensures r.Some? && sliderWidth.value < 0.0 ==> r.value == 0.0
  {
    match sliderWidth
    case None => None
    case Some(w) =>
      var xPos := eventX - handleRadius;
      var capped := if xPos < w then xPos else w;
      Some(if 0.0 > capped then 0.0 else capped)
  }

  /** The timestamp a slider position stands for: the first date plus the
      position's share of the span from the first to the last date. None
      is a timestamp that is not a finite number: a NaN position or width,
      or a zero width (0 / 0 is NaN, x / 0 is infinite). */
  function ImpliedTimestamp(data: seq<TimelineData>, xPos: Option<real>, sliderWidth: Option<real>): (t: Option<real>)
    requires |data| > 0
    ensures t.None? <==> xPos.None? || sliderWidth.None? || sliderWidth.value == 0.0
    ensures xPos == Some(0.0) && sliderWidth.Some? && sliderWidth.value != 0.0 ==> t == Some(data[0].date as real)
    ensures xPos.Some? && sliderWidth == xPos && xPos.value != 0.0 ==> t == Some(data[|data| - 1].date as real)
  {
    if xPos.None? || sliderWidth.None? || sliderWidth.value == 0.0 then None
    else
      var first := data[0].date as real;
      var last := data[|data| - 1].date as real;
      var x := xPos.value;
      var w := sliderWidth.value;
      assert x == w ==> x / w == 1.0 && first + (x / w) * (last - first) == last;
      Some(first + (x / w) * (last - first))
  }

  /** For a position on the track and dates in order, the implied timestamp
      lies between the first and the last date. */
  lemma ImpliedTimestampInRange(data: seq<TimelineData>, xPos: real, sliderWidth: real)
    requires |data| > 0 && sliderWidth > 0.0 && 0.0 <= xPos <= sliderWidth
    requires data[0].date <= data[|data| - 1].date
    ensures var t := ImpliedTimestamp(data, Some(xPos), Some(sliderWidth));
      t.Some? && data[0].date as real <= t.value <= data[|data| - 1].date as real
  {
    var f := xPos / sliderWidth;
    var span := (data[|data| - 1].date - data[0].date) as real;
    assert 0.0 <= f <= 1.0;
    assert 0.0 <= f * span <= span by {
      assert span - f * span == (1.0 - f) * span;
    }
  }

  /** `Math.abs(date - t)`. */
  function Dist(date: int, t: real): real
  {
    if date as real >= t then date as real - t else t - date as real
  }

  /** The reduce's test `|curr - t| < |prev - t|`; with a timestamp that is
      not finite both distances are NaN or infinite and the test is false. */
  predicate Closer(curr: TimelineData, prev: TimelineData, t: Option<real>)
  {
    t.Some? && Dist(curr.date, t.value) < Dist(prev.date, t.value)
  }

  /** The closest-date reduce: the index of the sample nearest t, scanning
      left to right and replacing the current best only on a strictly
      smaller distance, so on a tie the earliest sample wins, and a
      timestamp that is not finite keeps the first sample. */
  function ClosestIndex(data: seq<TimelineData>, t: Option<real>): (i: nat)
    requires |data| > 0
    ensures i < |data|
    ensures t.None? ==> i == 0
    ensures t.Some? ==> forall j :: 0 <= j < |data| ==> Dist(data[i].date, t.value) <= Dist(data[j].date, t.value)
    ensures t.Some? ==> forall j :: 0 <= j < i ==> Dist(data[i].date, t.value) < Dist(data[j].date, t.value)
    decreases |data|
  {
    if |data| == 1 then 0
    else
      var init := data[..|data| - 1];
      var p := ClosestIndex(init, t);
      assert forall j :: 0 <= j < |init| ==> init[j] == data[j];
      if Closer(data[|data| - 1], data[p], t) then |data| - 1 else p
  }

  /** The properties of ClosestIndex single out one index. */
  lemma ClosestIndexUnique(data: seq<TimelineData>, t: real, k: nat)
    requires k < |data|
    requires forall j :: 0 <= j < |data| ==> Dist(data[k].date, t) <= Dist(data[j].date, t)
    requires forall j :: 0 <= j < k ==> Dist(data[k].date, t) < Dist(data[j].date, t)
    ensures ClosestIndex(data, Some(t)) == k
  {
  }

  /** Dragging to the start of the track, whatever the width, selects the
      first sample, which is what rewinding dispatches. */
  lemma ClosestAtStart(data: seq<TimelineData>, sliderWidth: Option<real>)
    requires |data| > 0
    ensures ClosestIndex(data, ImpliedTimestamp(data, Some(0.0), sliderWidth)) == 0
  {
    var t := ImpliedTimestamp(data, Some(0.0), sliderWidth);
    if t.Some? {
      assert Dist(data[0].date, t.value) == 0.0;
    }
  }

  /** Dragging to the end of a track of non-zero width selects a sample
      dated at the last date. */
  lemma ClosestAtEnd(data: seq<TimelineData>, sliderWidth: real)
    requires |data| > 0 && sliderWidth != 0.0
    ensures data[ClosestIndex(data, ImpliedTimestamp(data, Some(sliderWidth), Some(sliderWidth)))].date
            == data[|data| - 1].date
  {
    var t := ImpliedTimestamp(data, Some(sliderWidth), Some(sliderWidth));
    var i := ClosestIndex(data, t);
    assert Dist(data[|data| - 1].date, t.value) == 0.0;
    assert Dist(data[i].date, t.value) <= 0.0;
  }

  /** The date dispatched for a slider position. */
  function SelectedDate(data: seq<TimelineData>, xPos: Option<real>, sliderWidth: Option<real>): int
    requires |data| > 0
  {
    data[ClosestIndex(data, ImpliedTimestamp(data, xPos, sliderWidth))].date
  }

  /** The drag handler as `createSliderHandle` installs it: the width it
      passes is the number the svg's "100%" width attribute converts to,
      which is NaN; the data and dispatch are the timeline's own. Returns
      the stored position and the dispatched date. */
  function WiredDrag(eventX: real, handleRadius: real, data: seq<TimelineData>): (Option<real>, int)
    requires |data| > 0
  {
    var pos := DragPosition(eventX, handleRadius, None);
    (pos, SelectedDate(data, pos, None))
  }

  /** As wired, a drag stores NaN as the position and always selects the
      first date, wherever the cursor is. */
  lemma WiredDragIgnoresCursor(eventX: real, handleRadius: real, data: seq<TimelineData>)
    requires |data| > 0
    ensures WiredDrag(eventX, handleRadius, data) == (None, data[0].date)
  {
  }

  /** With two samples a day apart on a 100-pixel track, dragging to the
      end selects the later date when the track's width is used and the
      earlier one as wired. */
  lemma WiredDragCounterexample()
    ensures var data := [TimelineData(0), TimelineData(MsPerDay)];
      && WiredDrag(110.0, 10.0, data).1 == 0
      && SelectedDate(data, DragPosition(110.0, 10.0, Some(100.0)), Some(100.0)) == MsPerDay
  {
    var data := [TimelineData(0), TimelineData(MsPerDay)];
    ClosestAtEnd(data, 100.0);
  }

  /** How many frames auto-play advances from position pos before a frame
      finds the position past the end of the track. */
  function FramesToEnd(pos: real, sliderWidth: real, speed: real): nat
    requires speed > 0.0
  {
    if pos > sliderWidth then 0 else ((sliderWidth - pos) / speed).Floor + 1
  }

  /** The position after k advancing frames from pos. */
  function PositionAfter(pos: real, speed: real, k: nat): real
  {
    pos + k as real * speed
  }

  /** One more frame moves the position on by speed. */
  lemma PositionAfterStep(pos: real, speed: real, k: nat)
    ensures PositionAfter(pos, speed, k + 1) == PositionAfter(pos, speed, k) + speed
  {
    assert (k + 1) as real * speed == k as real * speed + speed;
  }

  /** Auto-play takes exactly FramesToEnd advancing frames: each earlier
      frame starts on the track and the one after them starts past its end. */
  lemma FramesToEndExact(pos: real, sliderWidth: real, speed: real)
    requires speed > 0.0
    ensures PositionAfter(pos, speed, FramesToEnd(pos, sliderWidth, speed)) > sliderWidth
    ensures forall k: nat :: k < FramesToEnd(pos, sliderWidth, speed) ==> PositionAfter(pos, speed, k) <= sliderWidth
  {
    var n := FramesToEnd(pos, sliderWidth, speed);
    if pos <= sliderWidth {
      var q := (sliderWidth - pos) / speed;
      DivTimes(sliderWidth - pos, speed);
      assert n == q.Floor + 1;
      assert n as real > q;
      TimesStrict(n as real, q, speed);
      assert q * speed == sliderWidth - pos;
      assert n as real * speed > sliderWidth - pos;
      assert PositionAfter(pos, speed, n) == pos + n as real * speed;
      forall k: nat | k < n
        ensures PositionAfter(pos, speed, k) <= sliderWidth
      {
        assert k as real <= q.Floor as real;
        TimesMonotone(k as real, q, speed);
      }
    }
  }

  lemma DivTimes(a: real, c: real)
    requires c != 0.0
    ensures (a / c) * c == a
  {
  }

  lemma TimesStrict(a: real, b: real, c: real)
    requires a > b && c > 0.0
    ensures a * c > b * c
  {
    assert a * c - b * c == (a - b) * c;
  }

  lemma TimesMonotone(a: real, b: real, c: real)
    requires a <= b && c > 0.0
    ensures a * c <= b * c
  {
    assert b * c - a * c == (b - a) * c;
  }

  /** The event log after n auto-play frames from position start: the
      events before them, then for each frame k the date selected at the
      position the frame started from. */
  predicate Played(log: seq<Event>, base: seq<Event>, data: seq<TimelineData>, sliderWidth: real,
                   start: real, speed: real, n: nat)
    requires |data| > 0
  {
    && |log| == |base| + n
    && log[..|base|] == base
    && forall k :: 0 <= k < n ==>
         log[|base| + k] == DateSelected(SelectedDate(data, Some(PositionAfter(start, speed, k)), Some(sliderWidth)))
  }

  /** One more frame appends the date for the position it starts from. */
  lemma PlayedStep(log: seq<Event>, base: seq<Event>, data: seq<TimelineData>, sliderWidth: real,
                   start: real, speed: real, n: nat)
    requires |data| > 0 && Played(log, base, data, sliderWidth, start, speed, n)
    ensures Played(log + [DateSelected(SelectedDate(data, Some(PositionAfter(start, speed, n)), Some(sliderWidth)))],
                   base, data, sliderWidth, start, speed, n + 1)
  {
    var e := DateSelected(SelectedDate(data, Some(PositionAfter(start, speed, n)), Some(sliderWidth)));
    var log' := log + [e];
    assert log'[..|base|] == log[..|base|];
    forall k | 0 <= k < n + 1
      ensures log'[|base| + k] == DateSelected(SelectedDate(data, Some(PositionAfter(start, speed, k)), Some(sliderWidth)))
    {
      if k < n {
        assert log'[|base| + k] == log[|base| + k];
      }
    }
  }

  /** The scrubber's mutable state: the position store, the playing flag,
      `animationFrameRef.current`, the animation frames requested and not
      yet run or cancelled, the handle the next request returns, and the
      events dispatched so far. */
  class Scrubber {
    var position: real
    var playing: bool
    var frameRef: int
    var scheduled: set<int>
    var nextHandle: int
    var dispatched: seq<Event>

    /** Handles are never reused: every handle handed out is below nextHandle. */
    ghost predicate Valid()
      reads this
    {
      frameRef < nextHandle && forall h :: h in scheduled ==> h < nextHandle
    }

    constructor ()
      ensures Valid()
      ensures position == 0.0 && !playing && scheduled == {} && dispatched == []
    {
      position := 0.0;
      playing := false;
      frameRef := 0;
      scheduled := {};
      nextHandle := 1;
      dispatched := [];
    }

    /** `handleDrag`: with no data, nothing happens; otherwise the position
        is clamped onto the track and the nearest sample's date dispatched. */
    method HandleDrag(eventX: real, handleRadius: real, sliderWidth: real, data: seq<TimelineData>)
      modifies this`position, this`dispatched
      ensures data == [] ==> position == old(position) && dispatched == old(dispatched)
      ensures data != [] ==> Some(position) == DragPosition(eventX, handleRadius, Some(sliderWidth))
      ensures data != [] ==>
        dispatched == old(dispatched) + [DateSelected(SelectedDate(data, Some(position), Some(sliderWidth)))]
    {
      if |data| == 0 {
        return;
      }
      var xPos := DragPosition(eventX, handleRadius, Some(sliderWidth)).value;
      position := xPos;
      var t := ImpliedTimestamp(data, Some(xPos), Some(sliderWidth));
      var closest := data[ClosestIndex(data, t)].date;
      dispatched := dispatched + [DateSelected(closest)];
    }

    /** One frame of `startAutoSlide`'s `slide`. Past the end of the track it
        stops playing and cancels the latest frame; otherwise it advances
        by `speed`, dispatches the date nearest the position it started
        from, and requests the next frame. With no data the advance happens
        and then reading `data[0]` throws, ending the chain. */
    method Slide(data: seq<TimelineData>, sliderWidth: real, speed: real) returns (c: Completion)
      requires Valid()
      modifies this
      ensures Valid()
      ensures old(position) > sliderWidth ==>
        c == Normal && !playing && scheduled == old(scheduled) - {old(frameRef)}
        && position == old(position) && dispatched == old(dispatched)
        && frameRef == old(frameRef) && nextHandle == old(nextHandle)
      ensures old(position) <= sliderWidth ==>
        position == old(position) + speed && playing == old(playing)
      ensures old(position) <= sliderWidth && data == [] ==>
        c == TypeError && dispatched == old(dispatched) && scheduled == old(scheduled)
        && frameRef == old(frameRef) && nextHandle == old(nextHandle)
      ensures old(position) <= sliderWidth && data != [] ==>
        c == Normal
        && dispatched == old(dispatched) + [DateSelected(SelectedDate(data, Some(old(position)), Some(sliderWidth)))]
        && frameRef == old(nextHandle) && scheduled == old(scheduled) + {old(nextHandle)}
        && nextHandle == old(nextHandle) + 1
    {
      var currentXPos := position;
      if currentXPos > sliderWidth {
        playing := false;
        scheduled := scheduled - {frameRef};
        return Normal;
      }
      position := currentXPos + speed;
      if |data| == 0 {
        return TypeError;
      }
      var t := ImpliedTimestamp(data, Some(currentXPos), Some(sliderWidth));
      var closest := data[ClosestIndex(data, t)].date;
      dispatched := dispatched + [DateSelected(closest)];
      frameRef := nextHandle;
      scheduled := scheduled + {nextHandle};
      nextHandle := nextHandle + 1;
      c := Normal;
    }

    /** `startAutoSlide`: runs the first frame at once, so its effect is
        exactly one `slide`. */
    method StartAutoSlide(data: seq<TimelineData>, sliderWidth: real, speed: real) returns (c: Completion)
      requires Valid()
      modifies this
      ensures Valid()
      ensures old(position) > sliderWidth ==>
        c == Normal && !playing && scheduled == old(scheduled) - {old(frameRef)}
        && position == old(position) && dispatched == old(dispatched)
        && frameRef == old(frameRef) && nextHandle == old(nextHandle)
      ensures old(position) <= sliderWidth ==>
        position == old(position) + speed && playing == old(playing)
      ensures old(position) <= sliderWidth && data == [] ==>
        c == TypeError && dispatched == old(dispatched) && scheduled == old(scheduled)
        && frameRef == old(frameRef) && nextHandle == old(nextHandle)
      ensures old(position) <= sliderWidth && data != [] ==>
        c == Normal
        && dispatched == old(dispatched) + [DateSelected(SelectedDate(data, Some(old(position)), Some(sliderWidth)))]
        && frameRef == old(nextHandle) && scheduled == old(scheduled) + {old(nextHandle)}
        && nextHandle == old(nextHandle) + 1
    {
      c := Slide(data, sliderWidth, speed);
    }

    /** The host running the pending animation frame: the request is used
        up and `slide` runs again. */
    method Frame(data: seq<TimelineData>, sliderWidth: real, speed: real) returns (c: Completion)
      requires Valid() && frameRef in scheduled
      modifies this
      ensures Valid()
      ensures old(position) > sliderWidth ==>
        c == Normal && !playing && scheduled == old(scheduled) - {old(frameRef)}
        && position == old(position) && dispatched == old(dispatched)
        && frameRef == old(frameRef) && nextHandle == old(nextHandle)
      ensures old(position) <= sliderWidth ==>
        position == old(position) + speed && playing == old(playing)
      ensures old(position) <= sliderWidth && data == [] ==>
        c == TypeError && dispatched == old(dispatched) && scheduled == old(scheduled) - {old(frameRef)}
        && frameRef == old(frameRef) && nextHandle == old(nextHandle)
      ensures old(position) <= sliderWidth && data != [] ==>
        c == Normal
        && dispatched == old(dispatched) + [DateSelected(SelectedDate(data, Some(old(position)), Some(sliderWidth)))]
        && frameRef == old(nextHandle) && scheduled == old(scheduled) - {old(frameRef)} + {old(nextHandle)}
        && nextHandle == old(nextHandle) + 1
    {
      scheduled := scheduled - {frameRef};
      c := Slide(data, sliderWidth, speed);
    }

    /** Auto-play left to run: the first frame, then every frame the chain
        requests, until a frame finds the position past the end of the
        track. It stops after FramesToEnd advancing frames, with playing off
        and no frame left pending; the events dispatched before are kept,
        and frame k adds the date selected at the k-th position. */
    method AutoSlideUntilEnd(data: seq<TimelineData>, sliderWidth: real, speed: real)
      requires Valid() && speed > 0.0 && data != [] && scheduled == {}
      modifies this
      ensures Valid()
      ensures !playing && scheduled == {} && position > sliderWidth
      ensures position == PositionAfter(old(position), speed, FramesToEnd(old(position), sliderWidth, speed))
      ensures |dispatched| == |old(dispatched)| + FramesToEnd(old(position), sliderWidth, speed)
      ensures dispatched[..|old(dispatched)|] == old(dispatched)
      ensures forall k :: 0 <= k < FramesToEnd(old(position), sliderWidth, speed) ==>
        dispatched[|old(dispatched)| + k]
        == DateSelected(SelectedDate(data, Some(PositionAfter(old(position), speed, k)), Some(sliderWidth)))
    {
      ghost var start := position;
      ghost var base := dispatched;
      ghost var n := FramesToEnd(start, sliderWidth, speed);
      FramesToEndExact(start, sliderWidth, speed);
      ghost var done: nat := 0;
      var c := StartAutoSlide(data, sliderWidth, speed);
      if start <= sliderWidth {
        PlayedStep(base, base, data, sliderWidth, start, speed, 0);
        PositionAfterStep(start, speed, 0);
        done := 1;
      }
      while frameRef in scheduled
        invariant Valid()
        invariant scheduled == {} || scheduled == {frameRef}
        invariant done <= n
        invariant position == PositionAfter(start, speed, done)
        invariant Played(dispatched, base, data, sliderWidth, start, speed, done)
        invariant scheduled == {} ==> !playing && done == n
        invariant scheduled != {} ==> done >= 1
        decreases n - done + (if scheduled == {} then 0 else 1)
      {
        ghost var before := dispatched;
        ghost var p := position;
        c := Frame(data, sliderWidth, speed);
        if p <= sliderWidth {
          PlayedStep(before, base, data, sliderWidth, start, speed, done);
          PositionAfterStep(start, speed, done);
          done := done + 1;
        }
      }
    }

    /** `rewind`: the position goes back to 0 and the first date is
        dispatched; with no data, reading `data[0]` throws after the reset. */
    method Rewind(data: seq<TimelineData>) returns (c: Completion)
      modifies this`position, this`dispatched
      ensures position == 0.0
      ensures data == [] ==> c == TypeError && dispatched == old(dispatched)
      ensures data != [] ==> c == Normal && dispatched == old(dispatched) + [DateSelected(data[0].date)]
    {
      position := 0.0;
      if |data| == 0 {
        return TypeError;
      }
      dispatched := dispatched + [DateSelected(data[0].date)];
      c := Normal;
    }
  }
}
