/** The webcam lifecycle of one capture page, with the browser's timers and
    `getUserMedia` promises replaced by explicit counters.

    A page owns one `streamRef`. A start is scheduled 500 ms after the page
    (or step) becomes active; when that timer fires the page asks for a
    stream; each request later resolves (granted) or rejects. Stopping "all
    tracks" of `streamRef` ends the stream it refers to; a granted stream
    that overwrites a still-live `streamRef` is no longer reachable and stays
    live: it is counted in `leaked`. */
module Camera {

  /** - `startArmed`: the 500 ms start timer is pending;
      - `requests`: `getUserMedia` calls that have not yet settled;
      - `refLive`: `streamRef` holds a stream whose tracks are running;
      - `leaked`: running streams no reference can reach any more. */
  datatype Camera = Camera(startArmed: bool, requests: nat, refLive: bool, leaked: nat)

  /** Delay between entering the capture step and asking for the camera. */
  const StartDelayMs: nat := 500

  /** Error shown when the browser has no `mediaDevices.getUserMedia`. */
  const UnsupportedMessage := "Camera access not supported in this browser"
  /** Error shown when `getUserMedia` rejects with an empty message. */
  const AccessFailedMessage := "Could not access camera"
  /** Error shown when `play()` on the video element rejects. */
  const PlayFailedMessage := "Could not play video stream"

  /** No timer, no request, no stream. */
  const Off := Camera(false, 0, false, 0)

  /** Number of streams whose tracks are running. */
  function Live(c: Camera): nat {
    c.leaked + (if c.refLive then 1 else 0)
  }

  /** Schedules the delayed start (`setTimeout(startCamera, 500)`). */
  function Arm(c: Camera): (r: Camera)
    ensures r.startArmed && Live(r) == Live(c) && r.requests == c.requests
  {
    c.(startArmed := true)
  }

  /** Stops all tracks of the stream `streamRef` refers to, if it is live;
      streams it no longer refers to are out of reach. */
  function StopRef(c: Camera): (r: Camera)
    ensures !r.refLive && r.leaked == c.leaked
    ensures Live(r) == Live(c) - (if c.refLive then 1 else 0)
    ensures r.startArmed == c.startArmed && r.requests == c.requests
  {
    c.(refLive := false)
  }

  /** The effect cleanup: `clearTimeout` of the pending start, then stop the
      tracks of `streamRef`. Requests already sent are not cancelled. */
  function Teardown(c: Camera): (r: Camera)
    ensures !r.startArmed && !r.refLive && Live(r) == c.leaked
    ensures r.requests == c.requests
  {
    StopRef(c).(startArmed := false)
  }

  /** The start timer fires on a host that supports `getUserMedia`: the
      request is sent. With `stopPrior`, tracks of any stream `streamRef`
      still refers to are stopped first. */
  function Request(c: Camera, stopPrior: bool): (r: Camera)
    ensures !r.startArmed && r.requests == c.requests + 1
    ensures r.refLive == (c.refLive && !stopPrior) && r.leaked == c.leaked
  {
    var c' := if stopPrior then StopRef(c) else c;
    c'.(startArmed := false, requests := c.requests + 1)
  }

  /** A request resolves and the stream is stored in `streamRef`, overwriting
      whatever it held (this is what both pages' `startCamera` do). */
  function Granted(c: Camera): (r: Camera)
    requires c.requests > 0
    ensures r.refLive && r.requests == c.requests - 1
    ensures Live(r) == Live(c) + 1
  {
    c.(requests := c.requests - 1, refLive := true,
       leaked := c.leaked + (if c.refLive then 1 else 0))
  }

  /** A request resolves, guarded: when the page is no longer `active` the new
      stream is stopped at once; otherwise any stream `streamRef` still holds
      is stopped before the new one replaces it. */
  function GrantedGuarded(c: Camera, active: bool): (r: Camera)
    requires c.requests > 0
    ensures r.requests == c.requests - 1 && r.leaked == c.leaked
    ensures r.refLive == (active || c.refLive)
    ensures active ==> Live(r) == c.leaked + 1
    ensures !active ==> Live(r) == Live(c)
  {
    if active then c.(requests := c.requests - 1, refLive := true)
    else c.(requests := c.requests - 1)
  }

  /** A request rejects: it is no longer outstanding; no stream is created. */
  function Denied(c: Camera): (r: Camera)
    requires c.requests > 0
    ensures r.requests == c.requests - 1 && Live(r) == Live(c)
  {
    c.(requests := c.requests - 1)
  }

  /** `err.message || "Could not access camera"`. */
  function DeniedMessage(message: string): (r: string)
    ensures r != ""
    ensures message != "" ==> r == message
  {
    if message == "" then AccessFailedMessage else message
  }
}
