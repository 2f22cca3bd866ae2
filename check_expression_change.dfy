/** The neutral-reset watchdog of whisper_mic/check_expression_change.py.

    The watchdog listens to every OSC message the avatar runtime echoes
    back; an emote message records when the expression last changed and to
    which code. A periodic check sends code 0 on the emote address once more
    than 15 seconds have passed with a non-neutral expression. The check does
    not record its own reset, so it repeats on every period until a new emote
    message arrives. Time is the caller's `now`, in seconds; the OSC server,
    the thread and the 5-second sleep are not modelled. */
module CheckExpressionChange {
  import opened Common
  import opened Osc

  /** Seconds without an emote message after which a reset is due (strictly more). */
  const ResetAfter: real := 15.0

  /** An OSC argument as the server decodes it; nil decodes to None. */
  datatype OscArgument = OscInt(i: int) | OscFloat(f: real) | OscBool(b: bool) | OscNil

  /** Python's `int(x)`: integers unchanged, floats truncated toward zero,
      booleans as 0 and 1, and `int(None)` raises TypeError. */
  function PyInt(arg: OscArgument): (r: Result<int>)
    ensures r.Err? <==> arg.OscNil?
    ensures r.Err? ==> r.error == TypeError
    ensures arg.OscInt? ==> r == Ok(arg.i)
    ensures arg.OscFloat? && arg.f >= 0.0 ==> r.Ok? && r.value as real <= arg.f < r.value as real + 1.0
    ensures arg.OscFloat? && arg.f < 0.0 ==> r.Ok? && r.value as real - 1.0 < arg.f <= r.value as real
    ensures arg.OscBool? ==> r == Ok(if arg.b then 1 else 0)
  {
    match arg
    case OscInt(i) => Ok(i)
    case OscFloat(f) => Ok(if f >= 0.0 then f.Floor else -((-f).Floor))
    case OscBool(b) => Ok(if b then 1 else 0)
    case OscNil => Err(TypeError)
  }

  /** The reset condition of one check at time `now`. */
  predicate ResetDue(lastChangeTime: real, lastExpressionNum: int, now: real)
  {
    now - lastChangeTime > ResetAfter && lastExpressionNum != 0
  }

  /** A neutral expression is never reset. */
  lemma NeutralNeverReset(lastChangeTime: real, now: real)
    ensures !ResetDue(lastChangeTime, 0, now)
  {
  }

  /** The boundary is strict: exactly 15 s after the change nothing is due,
      any moment later a non-neutral expression is due. */
  lemma ResetBoundaryIsStrict(lastChangeTime: real, lastExpressionNum: int, delay: real)
    requires lastExpressionNum != 0
    ensures !ResetDue(lastChangeTime, lastExpressionNum, lastChangeTime + ResetAfter)
    ensures delay > 0.0 ==> ResetDue(lastChangeTime, lastExpressionNum, lastChangeTime + ResetAfter + delay)
  {
  }

  /** Once due, a reset stays due at every later check while the state is
      unchanged, which is as long as no emote message arrives. */
  lemma ResetStaysDue(lastChangeTime: real, lastExpressionNum: int, now: real, later: real)
    requires ResetDue(lastChangeTime, lastExpressionNum, now) && now <= later
    ensures ResetDue(lastChangeTime, lastExpressionNum, later)
  {
  }

  /** The two module-level variables LAST_EXPRESSION_CHANGE_TIME and LAST_EXPRESSION_NUM. */
  class ExpressionWatchdog {
    var lastChangeTime: real
    var lastExpressionNum: int

    /** Module import at time `start`: no expression yet, so nothing is due. */
    constructor (start: real)
      ensures lastChangeTime == start && lastExpressionNum == 0
      ensures forall now :: !ResetDue(lastChangeTime, lastExpressionNum, now)
    {
      lastChangeTime := start;
      lastExpressionNum := 0;
    }

    /** `printdata`: printing reads the first argument, so a message without
        arguments raises IndexError before anything is recorded; an address
        containing the emote parameter name records `now` and then the
        argument as an integer, and when that conversion raises, the time
        is already recorded and the code is kept; any other address changes
        nothing. */
    method PrintData(address: string, arguments: seq<OscArgument>, now: real) returns (status: Status)
      modifies this
      ensures |arguments| == 0 ==> status == Raised(IndexError)
      ensures |arguments| > 0 && !IsSubstring(EmoteParameter, address) ==> status == Done
      ensures |arguments| > 0 && IsSubstring(EmoteParameter, address) ==>
        lastChangeTime == now &&
        (if PyInt(arguments[0]).Ok?
         then status == Done && lastExpressionNum == PyInt(arguments[0]).value
         else status == Raised(PyInt(arguments[0]).error) && lastExpressionNum == old(lastExpressionNum))
      ensures !(|arguments| > 0 && IsSubstring(EmoteParameter, address)) ==>
        lastChangeTime == old(lastChangeTime) && lastExpressionNum == old(lastExpressionNum)
    {
      if |arguments| == 0 {
        return Raised(IndexError);
      }
      if IsSubstring(EmoteParameter, address) {
        lastChangeTime := now;
        var n := PyInt(arguments[0]);
        if n.Err? {
          return Raised(n.error);
        }
        lastExpressionNum := n.value;
      }
      return Done;
    }

    /** One iteration of `check_expression_change_time` at time `now`: the
        message it sends, if any. It changes no state. */
    method CheckExpressionChangeTime(now: real) returns (sent: Option<Message>)
      ensures sent.Some? <==> ResetDue(lastChangeTime, lastExpressionNum, now)
      ensures sent.Some? ==> sent.value == NeutralReset
    {
      var elapsedTime := now - lastChangeTime;
      if elapsedTime > ResetAfter && lastExpressionNum != 0 {
        sent := Some(NeutralReset);
      } else {
        sent := None;
      }
    }
  }
}
