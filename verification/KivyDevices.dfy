/** The hand-off between threads in the mobile display and camera (photontcp/mobile/kivy_devices.py): every
    lock section and every unlocked read or write of a flag is one step, and steps interleave freely. */
module KivyDevices {
  import opened Prelude

  // ---- the display -----------------------------------------------------------------------------
  // `show` runs on any number of threads, `render` on the main thread, `close` anywhere.

  /** What the main thread holds between taking a frame and uploading it. */
  datatype Hand = Empty | Took(frame: Option<nat>)

  /** Frames are numbered in the order their `show` stored them. `packing` counts shows past the closed
      check that have not stored yet, `arming` shows that stored and owe a callback, `queued` callbacks
      not yet past their lock. `taken` and `drawn` are the frames renders took and uploaded. */
  datatype Display = Display(
    closed: bool,
    pending: Option<nat>,
    scheduled: bool,
    packing: nat,
    arming: nat,
    queued: nat,
    hand: Hand,
    stored: nat,
    taken: seq<nat>,
    drawn: seq<nat>,
    closing: bool,
    emptied: bool)

  const NEW_DISPLAY := Display(false, None, false, 0, 0, 0, Empty, 0, [], [], false, false)

  datatype DisplayStep =
    | EnterShow     // reads the closed flag, packs the pixels
    | Store         // the lock section of show
    | Arm           // hands the callback to the scheduler
    | TakePending   // the lock section of a queued render
    | Upload        // reads the closed flag, then draws
    | SetClosed     // first line of close
    | DropPending   // the lock section of close

  predicate DisplayCan(d: Display, s: DisplayStep)
  {
    match s
    case EnterShow => true
    case Store => d.packing > 0
    case Arm => d.arming > 0
    case TakePending => d.queued > 0 && d.hand.Empty?
    case Upload => d.hand.Took?
    case SetClosed => true
    case DropPending => d.closing
  }

  function DisplayNext(d: Display, s: DisplayStep): Display
    requires DisplayCan(d, s)
  {
    match s
    case EnterShow => if d.closed then d else d.(packing := d.packing + 1)
    case Store =>
      d.(packing := d.packing - 1, pending := Some(d.stored), stored := d.stored + 1,
         arming := if d.scheduled then d.arming else d.arming + 1, scheduled := true)
    case Arm => d.(arming := d.arming - 1, queued := d.queued + 1)
    case TakePending =>
      d.(queued := d.queued - 1, hand := Took(d.pending), pending := None, scheduled := false,
         taken := if d.pending.Some? then d.taken + [d.pending.value] else d.taken)
    case Upload =>
      d.(hand := Empty, drawn := if d.hand.frame.Some? && !d.closed then d.drawn + [d.hand.frame.value] else d.drawn)
    case SetClosed => d.(closed := true, closing := true)
    case DropPending => d.(pending := None, emptied := true)
  }

  lemma IncreasingMore(s: seq<nat>, f: nat)
    requires Increasing(s) && forall g :: g in s ==> g < f
    ensures Increasing(s + [f])
  {
    var t := s + [f];
    forall i, j | 0 <= i < j < |t| ensures t[i] < t[j] {
      assert t[i] in s;
    }
  }

  /** The frames that left the slot, plus the one in hand last. */
  predicate DrawnOrInHand(d: Display)
  {
    match d.hand
    case Empty => d.drawn == d.taken
    case Took(None) => d.drawn == d.taken
    case Took(Some(f)) => d.taken == d.drawn + [f]
  }

  predicate DisplayOk(d: Display)
  {
    // one callback at most is owed or queued, exactly when the flag says so
    && d.queued + d.arming == (if d.scheduled then 1 else 0)
    // a stored frame always has a render coming
    && (d.pending.Some? ==> d.scheduled && d.pending.value == d.stored - 1)
    && Increasing(d.taken) && (forall f :: f in d.taken ==> f < d.stored)
    && (d.pending.Some? ==> forall f :: f in d.taken ==> f < d.pending.value)
    && (d.closing <==> d.closed)
    && (!d.closed ==> !d.emptied && DrawnOrInHand(d))
    // until close drops it, the newest frame is in the slot or was taken
    && (!d.emptied && d.stored > 0 ==> d.pending.Some? || (|d.taken| > 0 && d.taken[|d.taken| - 1] == d.stored - 1))
  }

  lemma DisplayStepKeeps(d: Display, s: DisplayStep)
    requires DisplayOk(d) && DisplayCan(d, s)
    ensures DisplayOk(DisplayNext(d, s))
  {
    if s.TakePending? && d.pending.Some? {
      IncreasingMore(d.taken, d.pending.value);
    }
  }

  predicate DisplayLegal(d: Display, ss: seq<DisplayStep>)
    decreases |ss|
  {
    ss == [] || (DisplayCan(d, ss[0]) && DisplayLegal(DisplayNext(d, ss[0]), ss[1..]))
  }

  function DisplayRun(d: Display, ss: seq<DisplayStep>): Display
    requires DisplayLegal(d, ss)
    decreases |ss|
  {
    if ss == [] then d else DisplayRun(DisplayNext(d, ss[0]), ss[1..])
  }

  lemma {:induction false} DisplayRunKeeps(d: Display, ss: seq<DisplayStep>)
    requires DisplayOk(d) && DisplayLegal(d, ss)
    ensures DisplayOk(DisplayRun(d, ss))
    decreases |ss|
  {
    if ss != [] {
      DisplayStepKeeps(d, ss[0]);
      DisplayRunKeeps(DisplayNext(d, ss[0]), ss[1..]);
    }
  }

  /** `f` was taken by a render, or replaced by a newer frame, or waits with a render on the way. */
  predicate Accounted(d: Display, f: nat)
  {
    f in d.taken || f < d.stored - 1 || (d.pending == Some(f) && d.queued + d.arming == 1)
  }

  lemma NewestIsAccounted(d: Display)
    requires DisplayOk(d) && !d.closed && d.stored > 0
    ensures Accounted(d, d.stored - 1)
    ensures d.queued + d.arming == 0 && d.hand.Empty? ==> |d.drawn| > 0 && d.drawn[|d.drawn| - 1] == d.stored - 1
  {
    if d.pending.None? {
      assert d.taken[|d.taken| - 1] in d.taken;
    }
  }

  lemma DrawnInOrder(d: Display)
    requires DisplayOk(d) && !d.closed
    ensures Increasing(d.drawn) && d.drawn <= d.taken
  {
    forall i, j | 0 <= i < j < |d.drawn| ensures d.drawn[i] < d.drawn[j] {
      assert d.drawn[i] == d.taken[i] && d.drawn[j] == d.taken[j];
    }
  }

  /** Callbacks never pile up; every frame stored on an open display is accounted for; frames are drawn
      in order, without repeats; and once an open display is at rest the newest frame is drawn. */
  ghost predicate NothingStranded(d: Display)
  {
    && d.queued + d.arming <= 1
    && (!d.closed ==> Increasing(d.drawn) && d.drawn <= d.taken && forall f: nat :: f < d.stored ==> Accounted(d, f))
    && (!d.closed && d.stored > 0 && d.queued + d.arming == 0 && d.hand.Empty? ==>
          |d.drawn| > 0 && d.drawn[|d.drawn| - 1] == d.stored - 1)
  }

  lemma OkStrandsNothing(d: Display)
    requires DisplayOk(d)
    ensures NothingStranded(d)
  {
    if !d.closed {
      DrawnInOrder(d);
      if d.stored > 0 {
        NewestIsAccounted(d);
      }
    }
  }

  /** Whatever the interleaving of shows, renders and close, no frame is stranded. */
  lemma EveryShownFrameIsRenderedOrSuperseded(d0: Display, ss: seq<DisplayStep>)
    requires d0 == NEW_DISPLAY && DisplayLegal(d0, ss)
    ensures NothingStranded(DisplayRun(d0, ss))
  {
    DisplayRunKeeps(d0, ss);
    OkStrandsNothing(DisplayRun(d0, ss));
  }

  // ---- the camera ------------------------------------------------------------------------------
  // Submissions come from the camera's threads, reads from the one capture thread, `close` from anywhere.

  /** Where the reader is: outside, past the closed check, waiting, woken (by the event or by the clock),
      past the second closed check. */
  datatype Reader = Outside | Entered | Waiting | Woken(rung: bool) | Past(rung: bool)

  /** `submitting` counts submissions past the closed check. Frames are numbered as they are stored;
      `returned` lists the frames given as new. `closeStage` is how far `close` has come. */
  datatype Camera = Camera(
    closed: bool,
    pending: Option<nat>,
    arrived: bool,
    submitting: nat,
    stored: nat,
    reader: Reader,
    returned: seq<nat>,
    closeStage: nat)

  const NEW_CAMERA := Camera(false, None, false, 0, 0, Outside, [], 0)

  datatype CameraStep =
    | EnterSubmit   // reads the closed flag, copies the pixels
    | Put           // the lock section of submit_frame: slot and event together
    | EnterRead     // reads the closed flag
    | CheckEvent    // is the event already set?
    | Wake          // the wait ends because the event is set
    | TimeOut       // the wait ends by the clock
    | Recheck       // reads the closed flag again
    | TakeSlot(usable: bool)  // the lock section of read, then conversion
    | MarkClosed    // close sets its flag
    | ClearSlots    // the lock section of close
    | Ring          // close sets the event

  predicate CameraCan(c: Camera, s: CameraStep)
  {
    match s
    case EnterSubmit => true
    case Put => c.submitting > 0
    case EnterRead => c.reader.Outside?
    case CheckEvent => c.reader.Entered?
    case Wake => c.reader.Waiting? && c.arrived
    case TimeOut => c.reader.Waiting?
    case Recheck => c.reader.Woken?
    case TakeSlot(_) => c.reader.Past?
    case MarkClosed => c.closeStage == 0
    case ClearSlots => c.closeStage == 1
    case Ring => c.closeStage == 2
  }

  function CameraNext(c: Camera, s: CameraStep): Camera
    requires CameraCan(c, s)
  {
    match s
    case EnterSubmit => if c.closed then c else c.(submitting := c.submitting + 1)
    case Put => c.(submitting := c.submitting - 1, pending := Some(c.stored), stored := c.stored + 1, arrived := true)
    case EnterRead => if c.closed then c else c.(reader := Entered)
    case CheckEvent => c.(reader := if c.arrived then Woken(true) else Waiting)
    case Wake => c.(reader := Woken(true))
    case TimeOut => c.(reader := Woken(false))
    case Recheck => c.(reader := if c.closed then Outside else Past(c.reader.rung))
    case TakeSlot(usable) =>
      var c1 := c.(pending := None, arrived := false, reader := Outside);
      if c.pending.Some? && usable then c1.(returned := c.returned + [c.pending.value]) else c1
    case MarkClosed => c.(closed := true, closeStage := 1)
    case ClearSlots => c.(pending := None, closeStage := 2)
    case Ring => c.(arrived := true, closeStage := 3)
  }

  predicate CameraOk(c: Camera)
  {
    && (c.closed <==> c.closeStage > 0) && c.closeStage <= 3
    // outside the lock sections the event is set exactly when a frame waits
    && (!c.closed ==> (c.arrived <==> c.pending.Some?))
    // a reader the event let through still finds a frame
    && (!c.closed && ((c.reader.Woken? && c.reader.rung) || (c.reader.Past? && c.reader.rung)) ==> c.pending.Some?)
    // the slot holds the newest frame, newer than all returned ones
    && (c.pending.Some? ==> c.pending.value == c.stored - 1)
    && Increasing(c.returned) && (forall f :: f in c.returned ==> f < c.stored)
    && (c.pending.Some? ==> forall f :: f in c.returned ==> f < c.pending.value)
    // nobody stays blocked once close is done
    && (c.closeStage == 3 && (c.reader.Entered? || c.reader.Waiting?) ==> c.arrived)
  }

  lemma CameraStepKeeps(c: Camera, s: CameraStep)
    requires CameraOk(c) && CameraCan(c, s)
    ensures CameraOk(CameraNext(c, s))
  {
    if s.TakeSlot? && c.pending.Some? {
      IncreasingMore(c.returned, c.pending.value);
    }
  }

  predicate CameraLegal(c: Camera, ss: seq<CameraStep>)
    decreases |ss|
  {
    ss == [] || (CameraCan(c, ss[0]) && CameraLegal(CameraNext(c, ss[0]), ss[1..]))
  }

  function CameraRun(c: Camera, ss: seq<CameraStep>): Camera
    requires CameraLegal(c, ss)
    decreases |ss|
  {
    if ss == [] then c else CameraRun(CameraNext(c, ss[0]), ss[1..])
  }

  lemma {:induction false} CameraRunKeeps(c: Camera, ss: seq<CameraStep>)
    requires CameraOk(c) && CameraLegal(c, ss)
    ensures CameraOk(CameraRun(c, ss))
    decreases |ss|
  {
    if ss != [] {
      CameraStepKeeps(c, ss[0]);
      CameraRunKeeps(CameraNext(c, ss[0]), ss[1..]);
    }
  }

  /** Under every interleaving with one reader: while the camera is open the event is set exactly when a
      frame waits, so a read woken by it takes a new frame, the newest there is; frames come back in
      order, none twice; and after close no read stays blocked. */
  lemma ReadsNeverWakeStale(ss: seq<CameraStep>)
    requires CameraLegal(NEW_CAMERA, ss)
    ensures var c := CameraRun(NEW_CAMERA, ss);
      && (!c.closed ==> (c.arrived <==> c.pending.Some?))
      && (!c.closed && c.reader.Past? && c.reader.rung ==>
            CameraNext(c, TakeSlot(true)).returned == c.returned + [c.stored - 1])
      && Increasing(c.returned)
      && (c.closeStage == 3 && c.reader.Waiting? ==> CameraCan(c, Wake))
  {
    CameraRunKeeps(NEW_CAMERA, ss);
  }
}
