/** The still-capture routine shared by the single-page wizard and the
    capture page: a 3-2-1 countdown driven by a one-second interval, a 100 ms
    settle delay, then one grab of the current video frame, with a 640x480
    simulated picture substituted whenever no live frame can be read. */
module Shutter {
  import opened Common

  /** The countdown starts at this value. */
  const CountdownFrom: nat := 3
  /** Interval between countdown ticks. */
  const TickMs: nat := 1000
  /** Delay between the last tick and the grab. */
  const SettleMs: nat := 100

  /** The simulated picture drawn when no frame is available (a 640x480
      grey canvas with a circle "head" and a rectangle "body", exported as a
      JPEG data URL at quality 0.8). Its
      pixels are not modelled: this string is an opaque stand-in for it. */
  const SimulatedImage: string := "data:image/jpeg;simulated-640x480"

  /** One capture attempt in progress.
      - `Counting(remaining, _)`: the interval is running and the displayed
        countdown is `remaining`;
      - `Settling(_)`: the countdown reached 0, the interval is cleared and
        the grab is scheduled;
      - `readyAtClick`: the camera readiness the capture callback closed over
        when the button was pressed (the grab consults this copy). */
  datatype Shutter = Idle | Counting(remaining: nat, readyAtClick: bool) | Settling(readyAtClick: bool)

  /** A countdown never shows more than 3 nor fewer than 1 while counting. */
  predicate Valid(sh: Shutter) {
    sh.Counting? ==> 1 <= sh.remaining <= CountdownFrom
  }

  /** The displayed `countdown` state: `null` when no capture is under way, 0
      between the last tick and the grab. */
  function Countdown(sh: Shutter): Option<nat> {
    match sh
    case Idle => None
    case Counting(n, _) => Some(n)
    case Settling(_) => Some(0)
  }

  /** The button press: `count = 3; setCountdown(count)` and the interval starts. */
  function Start(readyAtClick: bool): (r: Shutter)
    ensures Valid(r) && r.Counting? && r.readyAtClick == readyAtClick
    ensures Countdown(r) == Some(CountdownFrom)
  {
    Counting(CountdownFrom, readyAtClick)
  }

  /** One interval tick: `count--; setCountdown(count)`, and at 0 the interval
      is cleared and the grab scheduled. */
  function Tick(sh: Shutter): (r: Shutter)
    requires sh.Counting? && Valid(sh)
    ensures Valid(r) && !r.Idle? && r.readyAtClick == sh.readyAtClick
    ensures Countdown(r) == Some(sh.remaining - 1)
    ensures r.Settling? <==> sh.remaining == 1
  {
    if sh.remaining == 1 then Settling(sh.readyAtClick)
    else Counting(sh.remaining - 1, sh.readyAtClick)
  }

  /** `k` interval ticks; ticks stop once the interval is cleared. */
  function Ticks(sh: Shutter, k: nat): Shutter
    requires Valid(sh)
    decreases k
  {
    if k == 0 || !sh.Counting? then sh else Ticks(Tick(sh), k - 1)
  }

  /** A countdown showing `n` is still counting after each of its first
      `n - 1` ticks (so another tick follows), showing `n - k` after `k` of
      them, and is settling after exactly `n` ticks (so no tick follows and
      the one grab is due). */
  lemma {:induction false} CountsDown(n: nat, ready: bool, k: nat)
    requires 1 <= n <= CountdownFrom && k <= n
    ensures Ticks(Counting(n, ready), k) == if k < n then Counting(n - k, ready) else Settling(ready)
    decreases k
  {
    if k > 0 {
      var next := Tick(Counting(n, ready));
      if n == 1 {
        assert Ticks(next, k - 1) == next;
      } else {
        CountsDown(n - 1, ready, k - 1);
      }
    }
  }

  /** The values a capture displays: 3 at the press, then 2, 1 and 0 on the
      three ticks, after which the interval is cleared and the grab is due. */
  lemma CountdownSequence(ready: bool)
    ensures Countdown(Start(ready)) == Some(3)
    ensures Countdown(Ticks(Start(ready), 1)) == Some(2)
    ensures Countdown(Ticks(Start(ready), 2)) == Some(1)
    ensures Countdown(Ticks(Start(ready), 3)) == Some(0)
    ensures Ticks(Start(ready), 3) == Settling(ready)
  {
    CountsDown(3, ready, 1);
    CountsDown(3, ready, 2);
    CountsDown(3, ready, 3);
  }

  /** What the grab can find when it runs: no video element, a video with
      zero `videoWidth`, a live frame (encoded as `url`), or an exception
      while drawing, encoding or, on the capture page, storing the picture
      (`localStorage.setItem` throws when the quota is full or storage is
      disabled); all of these end in the simulated picture. */
  datatype Frame = NoVideo | ZeroWidth | LiveFrame(url: string) | Throws

  /** The picture a grab produces and whether it came from the camera. */
  datatype Still = Still(image: string, fromCamera: bool)

  /** The grab: a live frame is used only when the video has a frame and the
      camera was ready when the button was pressed; every other path yields
      the simulated picture. */
  function Grab(readyAtClick: bool, f: Frame): (g: Still)
    ensures g.fromCamera <==> (readyAtClick && f.LiveFrame?)
    ensures g.fromCamera ==> g.image == f.url
    ensures !g.fromCamera ==> g.image == SimulatedImage
  {
    match f
    case LiveFrame(url) => if readyAtClick then Still(url, true) else Still(SimulatedImage, false)
    case _ => Still(SimulatedImage, false)
  }
}
