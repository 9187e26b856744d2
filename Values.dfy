/** Values shared by the observation store, the frame handlers and the monitor:
    JavaScript primitive values, timestamped series entries, the event tags of
    src/constants.js and the emitter that a frame handler exposes upward. */
module Values {

  datatype Option<+T> = None | Some(value: T)

  /** A JavaScript value as stored by the telemetry store. Strict inequality
      (`!==`) on these primitives is structural inequality. */
  datatype Value = Null | Str(s: string) | Num(n: int)

  /** Milliseconds since the epoch, the `valueOf()` of a JavaScript `Date`. */
  type Time = int

  /** One `[timestamp, value]` pair of a series. */
  datatype Entry = Entry(time: Time, value: Value)

  // Event tags of src/constants.js
  const WEBSOCKET_EVENT_DISCONNECTED: string := "websocket:disconnected"
  const WEBSOCKET_EVENT_MOWER_CHANGE: string := "websocket:mower_change"
  const MOWER_EVENT_CHANGE: string := "mower:change"
  const MOWER_STATE: string := "mower:state"
  const MOWER_ACTIVITY: string := "mower:activity"
  const MOWER_ERROR: string := "mower:error"

  /** The `(type, data)` arguments of one MOWER_EVENT_CHANGE emission. */
  datatype Change = Change(kind: string, value: Value)

  /** What a frame handler emits on its own emitter. */
  datatype Emission = MowerChange(change: Change) | Disconnected

  /** The emitter of one frame handler: the sequence of everything it has
      emitted so far. A device's change listener forwards into it. */
  class HandlerChannel {
    var emitted: seq<Emission>

    constructor ()
      ensures emitted == []
    {
      emitted := [];
    }
  }

  /** What passes the `_disableEmitter` gate of `emit`: nothing while the
      gate is closed. */
  function Gated<T>(disabled: bool, xs: seq<T>): seq<T> {
    if disabled then [] else xs
  }

  lemma GatedAppend<T>(disabled: bool, xs: seq<T>, ys: seq<T>)
    ensures Gated(disabled, xs + ys) == Gated(disabled, xs) + Gated(disabled, ys)
  {
  }

  /** `x` repeated `n` times. */
  function Repeat<T>(x: T, n: nat): (r: seq<T>)
    ensures |r| == n
    ensures forall i :: 0 <= i < n ==> r[i] == x
  {
    if n == 0 then [] else Repeat(x, n - 1) + [x]
  }

  /** Number of occurrences of `x` in `s`. */
  function Count<T(==)>(s: seq<T>, x: T): (n: nat)
    ensures n <= |s|
    ensures x !in s ==> n == 0
  {
    if s == [] then 0 else Count(s[..|s| - 1], x) + (if s[|s| - 1] == x then 1 else 0)
  }

  lemma {:induction false} CountSingleton<T>(x: T)
    ensures Count([x], x) == 1
  {
    assert [x][..0] == [];
  }

  function DigitChar(d: nat): (c: char)
    requires d < 10
    ensures '0' <= c <= '9'
  {
    ('0' as int + d) as char
  }

  function NatText(n: nat): (r: string)
    ensures |r| > 0
    ensures '0' <= r[0] <= '9'
    decreases n
  {
    if n < 10 then [DigitChar(n)] else NatText(n / 10) + [DigitChar(n % 10)]
  }

  /** The text of a value in a template literal `${v}`: a number's text is
      never empty and starts with `-` exactly when the number is negative. */
  function ValueText(v: Value): (r: string)
    ensures v.Num? ==> |r| > 0 && (r[0] == '-' <==> v.n < 0)
  {
    match v
    case Null => "null"
    case Str(s) => s
    case Num(n) => if n < 0 then "-" + NatText(-n) else NatText(n)
  }
}
