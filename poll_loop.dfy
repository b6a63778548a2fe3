/**
 * The bot's main loop. Each pass fetches the API's answer, checks it, and when it
 * lists any submission formats the first one and sends it to the chat; only a pass
 * in which nothing raised moves the polling timestamp on to the current time.
 * The fetch, the chat client and the clock are inputs of each pass.
 */
module PollLoop {
  import opened JsonValue
  import opened Homework

  /**
   * What the outside world supplies to one pass: the clock's reading when the
   * request is built, what fetching the API gave (a decoded answer, or `None`
   * when fetching raised), whether the chat client delivers the message it is
   * handed, and the clock's reading after the pass.
   */
  datatype Tick = Tick(requestTime: int, fetched: Option<Json>, sendSucceeds: bool, now: int)

  /**
   * The `from_date` a pass asks the API for: the polling timestamp, or the
   * clock's reading when the timestamp is 0 (Python's `or` treats 0 as false).
   */
  function FromDate(current: int, requestTime: int): (d: int)
    ensures current != 0 ==> d == current
    ensures current == 0 ==> d == requestTime
  {
    if current != 0 then current else requestTime
  }

  /**
   * The outcome of one pass of the loop's `try` block: the message sent (if
   * any), or the error that ended the pass. A failed pass sends nothing: the
   * failure text it composes is only logged.
   */
  function Iterate(fetched: Option<Json>, sendSucceeds: bool): (r: Result<Option<string>>)
    ensures r.Ok? <==>
      && fetched.Some?
      && CheckResponse(fetched.value).Ok?
      && (|CheckResponse(fetched.value).value| > 0 ==>
            ParseStatus(CheckResponse(fetched.value).value[0]).Ok? && sendSucceeds)
    ensures r.Ok? && r.value.Some? ==>
      var homeworks := CheckResponse(fetched.value).value;
      |homeworks| > 0 && ParseStatus(homeworks[0]) == Ok(r.value.value)
    ensures r.Ok? && r.value.None? <==>
      fetched.Some? && CheckResponse(fetched.value) == Ok([])
    ensures fetched.None? ==> r == Err(ApiUnavailable)
    ensures fetched.Some? && CheckResponse(fetched.value).Err? ==> r == Err(CheckResponse(fetched.value).error)
    ensures fetched.Some? && CheckResponse(fetched.value).Ok? && |CheckResponse(fetched.value).value| > 0 ==>
      var parsed := ParseStatus(CheckResponse(fetched.value).value[0]);
      && (parsed.Err? ==> r == Err(parsed.error))
      && (parsed.Ok? && !sendSucceeds ==> r == Err(SendFailed))
  {
    var response :- if fetched.Some? then Ok(fetched.value) else Err(ApiUnavailable);
    var homework :- CheckResponse(response);
    if |homework| != 0 then
      var message :- ParseStatus(homework[0]);
      if sendSucceeds then Ok(Some(message)) else Err(SendFailed)
    else
      Ok(None)
  }

  /** True when the pass ran to its end without raising. */
  predicate Succeeds(t: Tick) {
    Iterate(t.fetched, t.sendSucceeds).Ok?
  }

  /** The message a pass hands to the chat client and that arrives, as a list of zero or one. */
  function SentBy(t: Tick): (sent: seq<string>)
    ensures |sent| <= 1
    ensures |sent| == 1 ==> Succeeds(t) && Iterate(t.fetched, t.sendSucceeds) == Ok(Some(sent[0]))
    ensures Iterate(t.fetched, t.sendSucceeds).Ok? && Iterate(t.fetched, t.sendSucceeds).value.Some? ==>
      sent == [Iterate(t.fetched, t.sendSucceeds).value.value]
  {
    var r := Iterate(t.fetched, t.sendSucceeds);
    if r.Ok? && r.value.Some? then [r.value.value] else []
  }

  /** The polling timestamp after a pass: the clock's reading if the pass succeeded, else unchanged. */
  function NextTimestamp(current: int, t: Tick): int {
    if Succeeds(t) then t.now else current
  }

  /** The polling timestamp after the given passes, starting from `start`. */
  function FinalTimestamp(start: int, ticks: seq<Tick>): int
    decreases |ticks|
  {
    if ticks == [] then start
    else NextTimestamp(FinalTimestamp(start, ticks[..|ticks| - 1]), ticks[|ticks| - 1])
  }

  /** The `from_date` of each of the given passes, in order. */
  function Requests(start: int, ticks: seq<Tick>): (r: seq<int>)
    ensures |r| == |ticks|
    decreases |ticks|
  {
    if ticks == [] then []
    else
      var init := ticks[..|ticks| - 1];
      Requests(start, init) + [FromDate(FinalTimestamp(start, init), ticks[|ticks| - 1].requestTime)]
  }

  /** Every message the given passes deliver, in order. */
  function Delivered(ticks: seq<Tick>): seq<string>
    decreases |ticks|
  {
    if ticks == [] then []
    else Delivered(ticks[..|ticks| - 1]) + SentBy(ticks[|ticks| - 1])
  }

  /** The bot while it runs: the one variable the loop keeps from pass to pass. */
  class Bot {
    var currentTimestamp: int

    /** Start-up: the token check's answer is ignored, and polling starts from the current time. */
    constructor (now: int)
      ensures currentTimestamp == now
    {
      currentTimestamp := now;
    }

    /**
     * One pass of the loop body; an error plays the part of the exception the
     * `except` catches. Returns the `from_date` the request asks for, too.
     */
    method Step(t: Tick) returns (fromDate: int, outcome: Result<Option<string>>)
      modifies this
      ensures fromDate == FromDate(old(currentTimestamp), t.requestTime)
      ensures outcome == Iterate(t.fetched, t.sendSucceeds)
      ensures currentTimestamp == if outcome.Ok? then t.now else old(currentTimestamp)
    {
      fromDate := if currentTimestamp != 0 then currentTimestamp else t.requestTime;
      if t.fetched.None? {
        return fromDate, Err(ApiUnavailable);
      }
      var homework := CheckResponse(t.fetched.value);
      if homework.Err? {
        return fromDate, Err(homework.error);
      }
      if |homework.value| != 0 {
        var message := ParseStatus(homework.value[0]);
        if message.Err? {
          return fromDate, Err(message.error);
        }
        if !t.sendSucceeds {
          return fromDate, Err(SendFailed);
        }
        outcome := Ok(Some(message.value));
      } else {
        outcome := Ok(None);
      }
      currentTimestamp := t.now;
    }

    /**
     * The loop run for as many passes as there are ticks; returns the `from_date`
     * of every request and the messages delivered.
     */
    method Run(ticks: seq<Tick>) returns (fromDates: seq<int>, delivered: seq<string>)
      modifies this
      ensures currentTimestamp == FinalTimestamp(old(currentTimestamp), ticks)
      ensures fromDates == Requests(old(currentTimestamp), ticks)
      ensures delivered == Delivered(ticks)
    {
      ghost var start := currentTimestamp;
      fromDates, delivered := [], [];
      var i := 0;
      while i < |ticks|
        invariant 0 <= i <= |ticks|
        invariant currentTimestamp == FinalTimestamp(start, ticks[..i])
        invariant fromDates == Requests(start, ticks[..i])
        invariant delivered == Delivered(ticks[..i])
      {
        var fromDate, outcome := Step(ticks[i]);
        fromDates := fromDates + [fromDate];
        if outcome.Ok? && outcome.value.Some? {
          delivered := delivered + [outcome.value.value];
        }
        assert ticks[..i + 1][..i] == ticks[..i];
        i := i + 1;
      }
      assert ticks[..|ticks|] == ticks;
    }
  }

  // ---------------------------------------------------------------- properties of a run

  /** Each pass delivers at most one message, so a run never delivers more messages than passes. */
  lemma {:induction false} AtMostOneMessagePerPass(ticks: seq<Tick>)
    ensures |Delivered(ticks)| <= |ticks|
    decreases |ticks|
  {
    if ticks != [] {
      AtMostOneMessagePerPass(ticks[..|ticks| - 1]);
    }
  }

  /** `m` is the notification for the first submission in the answer the pass fetched. */
  predicate FormatsFirstRecord(t: Tick, m: string) {
    && t.fetched.Some?
    && CheckResponse(t.fetched.value).Ok?
    && |CheckResponse(t.fetched.value).value| > 0
    && ParseStatus(CheckResponse(t.fetched.value).value[0]) == Ok(m)
  }

  /** Every delivered message is the notification for the first submission of some pass's answer. */
  lemma {:induction false} DeliveredAreFirstRecords(ticks: seq<Tick>, m: string)
    requires m in Delivered(ticks)
    ensures exists i :: 0 <= i < |ticks| && FormatsFirstRecord(ticks[i], m)
    decreases |ticks|
  {
    var init := ticks[..|ticks| - 1];
    var last := |ticks| - 1;
    if m in Delivered(init) {
      DeliveredAreFirstRecords(init, m);
      var i :| 0 <= i < |init| && FormatsFirstRecord(init[i], m);
      assert ticks[i] == init[i];
    } else {
      assert SentBy(ticks[last]) == [m];
      assert ticks[last].fetched.Some?;
    }
  }

  /** Every pass that succeeds with a message gets that message delivered. */
  lemma {:induction false} SuccessfulPassDelivered(ticks: seq<Tick>, i: int, m: string)
    requires 0 <= i < |ticks|
    requires Iterate(ticks[i].fetched, ticks[i].sendSucceeds) == Ok(Some(m))
    ensures m in Delivered(ticks)
    decreases |ticks|
  {
    var init := ticks[..|ticks| - 1];
    var last := |ticks| - 1;
    if i < last {
      assert init[i] == ticks[i];
      SuccessfulPassDelivered(init, i, m);
    } else {
      assert SentBy(ticks[last]) == [m];
    }
  }

  /** Passes that all fail leave the timestamp where it started. */
  lemma {:induction false} FailedPassesKeepTimestamp(start: int, ticks: seq<Tick>)
    requires forall i :: 0 <= i < |ticks| ==> !Succeeds(ticks[i])
    ensures FinalTimestamp(start, ticks) == start
    decreases |ticks|
  {
    if ticks != [] {
      FailedPassesKeepTimestamp(start, ticks[..|ticks| - 1]);
    }
  }

  /** Pass `i` is the last one of `ticks` that succeeded. */
  predicate LastSuccess(ticks: seq<Tick>, i: int) {
    0 <= i < |ticks| && Succeeds(ticks[i]) && forall j :: i < j < |ticks| ==> !Succeeds(ticks[j])
  }

  /** After a run, the timestamp is the clock reading of the last pass that succeeded. */
  lemma {:induction false} TimestampIsLastSuccess(start: int, ticks: seq<Tick>, i: int)
    requires LastSuccess(ticks, i)
    ensures FinalTimestamp(start, ticks) == ticks[i].now
    decreases |ticks|
  {
    var init := ticks[..|ticks| - 1];
    var last := |ticks| - 1;
    if i < last {
      assert !Succeeds(ticks[last]);
      assert init[i] == ticks[i];
      forall j | i < j < |init| ensures !Succeeds(init[j]) {
        assert init[j] == ticks[j];
      }
      TimestampIsLastSuccess(start, init, i);
    }
  }

  /** The timestamp never exceeds a bound that the start value and every clock reading stay within. */
  lemma {:induction false} TimestampBoundedByClock(start: int, ticks: seq<Tick>, bound: int)
    requires start <= bound
    requires forall i :: 0 <= i < |ticks| ==> ticks[i].now <= bound
    ensures FinalTimestamp(start, ticks) <= bound
    decreases |ticks|
  {
    if ticks != [] {
      TimestampBoundedByClock(start, ticks[..|ticks| - 1], bound);
    }
  }

  /**
   * With a clock that never runs backwards and starts no earlier than the
   * start time, the polling timestamp never decreases from one pass to the next.
   */
  lemma TimestampNonDecreasing(start: int, ticks: seq<Tick>, k: nat)
    requires k < |ticks|
    requires forall i :: 0 <= i < |ticks| ==> start <= ticks[i].now
    requires forall i, j :: 0 <= i < j < |ticks| ==> ticks[i].now <= ticks[j].now
    ensures FinalTimestamp(start, ticks[..k]) <= FinalTimestamp(start, ticks[..k + 1])
  {
    var prefix := ticks[..k];
    assert ticks[..k + 1][..k] == prefix;
    assert forall i :: 0 <= i < |prefix| ==> prefix[i].now <= ticks[k].now;
    TimestampBoundedByClock(start, prefix, ticks[k].now);
  }

  /** Pass `k` asks for the submissions since the timestamp left by the passes before it. */
  lemma {:induction false} RequestsAt(start: int, ticks: seq<Tick>, k: int)
    requires 0 <= k < |ticks|
    ensures |Requests(start, ticks)| == |ticks|
    ensures Requests(start, ticks)[k] == FromDate(FinalTimestamp(start, ticks[..k]), ticks[k].requestTime)
    decreases |ticks|
  {
    var init := ticks[..|ticks| - 1];
    if k < |ticks| - 1 {
      RequestsAt(start, init, k);
      assert init[..k] == ticks[..k];
      assert init[k] == ticks[k];
    } else {
      assert init == ticks[..k];
    }
  }

  /**
   * With a non-zero start time and clock readings, each pass asks for the
   * submissions since the clock reading of the last pass before it that succeeded.
   */
  lemma RequestSinceLastSuccess(start: int, ticks: seq<Tick>, k: int, i: int)
    requires 0 <= k < |ticks|
    requires LastSuccess(ticks[..k], i)
    requires ticks[i].now != 0
    ensures Requests(start, ticks)[k] == ticks[i].now
  {
    RequestsAt(start, ticks, k);
    TimestampIsLastSuccess(start, ticks[..k], i);
  }

  /** With a non-zero start time, every pass until one succeeds asks for the submissions since start-up. */
  lemma RequestSinceStartUntilSuccess(start: int, ticks: seq<Tick>, k: int)
    requires 0 <= k < |ticks|
    requires start != 0
    requires forall i :: 0 <= i < k ==> !Succeeds(ticks[i])
    ensures Requests(start, ticks)[k] == start
  {
    RequestsAt(start, ticks, k);
    FailedPassesKeepTimestamp(start, ticks[..k]);
  }

  // ---------------------------------------------------------------- kinds of pass

  /** The submissions listed in a fetched answer, when it is a dict whose `homeworks` is a list. */
  predicate ListsSubmissions(t: Tick) {
    t.fetched.Some? && t.fetched.value.JObject? && "homeworks" in t.fetched.value.fields
    && t.fetched.value.fields["homeworks"].JArray?
  }

  /** The first submission record of an answer that lists at least one. */
  function FirstRecord(t: Tick): Json
    requires ListsSubmissions(t) && |t.fetched.value.fields["homeworks"].items| > 0
  {
    t.fetched.value.fields["homeworks"].items[0]
  }

  /** Any answer whose `homeworks` is an empty list: nothing is sent and the timestamp moves on. */
  lemma EmptyAnswerAdvances(current: int, t: Tick)
    requires ListsSubmissions(t) && t.fetched.value.fields["homeworks"].items == []
    ensures Iterate(t.fetched, t.sendSucceeds) == Ok(None)
    ensures SentBy(t) == [] && NextTimestamp(current, t) == t.now
  {
  }

  /**
   * Any answer whose first submission has a name and the status `approved`: when
   * the send succeeds, that submission's notification is sent and the timestamp moves on.
   */
  lemma ApprovedSubmissionSent(current: int, t: Tick)
    requires ListsSubmissions(t) && |t.fetched.value.fields["homeworks"].items| > 0
    requires FirstRecord(t).JObject? && "homework_name" in FirstRecord(t).fields
    requires "status" in FirstRecord(t).fields && FirstRecord(t).fields["status"] == JString("approved")
    requires t.sendSucceeds
    ensures SentBy(t) == [Notification(Render(FirstRecord(t).fields["homework_name"]), HomeworkStatuses["approved"])]
    ensures NextTimestamp(current, t) == t.now
  {
  }

  /**
   * Any answer whose first submission has a name and a hashable status that is not
   * a table key fails the pass with `UnknownStatus`: nothing is sent and the
   * timestamp stays, whatever the later submissions hold and whether or not a send
   * would have succeeded.
   */
  lemma UnknownStatusKeepsTimestamp(current: int, t: Tick)
    requires ListsSubmissions(t) && |t.fetched.value.fields["homeworks"].items| > 0
    requires FirstRecord(t).JObject? && "homework_name" in FirstRecord(t).fields && "status" in FirstRecord(t).fields
    requires Hashable(FirstRecord(t).fields["status"]) && !KnownStatus(FirstRecord(t).fields["status"])
    ensures Iterate(t.fetched, t.sendSucceeds) == Err(UnknownStatus(FirstRecord(t).fields["status"]))
    ensures SentBy(t) == [] && NextTimestamp(current, t) == current
  {
  }
}
