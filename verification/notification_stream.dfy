/**
 * The "start-notification-stream" tool. Its loop numbers notifications
 * 1, 2, ... and hands each to `sendNotification`, swallowing send failures.
 *
 * The outcome of each send comes from the environment: `sendOk[i]` says
 * whether the (i+1)-th send succeeded, and |sendOk| is how many sends the
 * environment is observed for. A run that is still inside its loop when
 * those outcomes are used up is reported as StillRunning; with count == 0
 * every run is.
 */
module NotificationStream {
  import opened Protocol
  import NumberText

  const DefaultInterval: int := 100
  const DefaultCount: int := 10
  const NotificationMethod: string := "notifications/message"
  const InfoLevel: string := "info"
  const DataOpening: string := "Periodic notification #"
  const ConfirmationOpening: string := "Started sending periodic notifications every "

  /** `{ method, params: { level, data } }`; the data text is given by Data. */
  datatype Notification = Notification(rpcMethod: string, level: string, counter: int)

  datatype StreamOutcome =
    /** The loop exited and the tool returned this result. */
    | Finished(result: ToolResult)
    /** The loop had made `sent` send attempts and was still going. */
    | StillRunning(sent: nat)

  /** The tool's arguments after the schema's defaults are applied. */
  function WithDefaults(interval: Option<int>, count: Option<int>): (args: (int, int))
    ensures interval.None? ==> args.0 == 100
    ensures interval.Some? ==> args.0 == interval.value
    ensures count.None? ==> args.1 == 10
    ensures count.Some? ==> args.1 == count.value
  {
    (if interval.Some? then interval.value else DefaultInterval,
     if count.Some? then count.value else DefaultCount)
  }

  /** The notification sent when the counter has reached `counter`. */
  function Numbered(counter: int): Notification {
    Notification(NotificationMethod, InfoLevel, counter)
  }

  /** The first k notifications the loop sends, numbered 1..k. */
  function Attempts(k: nat): (ns: seq<Notification>)
    ensures |ns| == k
    ensures forall i :: 0 <= i < k ==> ns[i] == Numbered(i + 1)
  {
    if k == 0 then [] else Attempts(k - 1) + [Numbered(k)]
  }

  /**
   * The `data` text of a notification; `timestamp` is the ISO time read
   * from the clock at the moment of sending.
   */
  function Data(counter: int, timestamp: string): (text: string)
    ensures |text| >= |DataOpening| + |NumberText.Format(counter)|
    ensures text[..|DataOpening|] == DataOpening
    ensures var digits := text[|DataOpening|..|DataOpening| + |NumberText.Format(counter)|];
            NumberText.Parsable(digits) && NumberText.Parse(digits) == counter
    ensures text[|DataOpening| + |NumberText.Format(counter)|..] == " at " + timestamp
  {
    var digits := NumberText.Format(counter);
    var text := DataOpening + digits + (" at " + timestamp);
    Pieces(DataOpening, digits, " at " + timestamp);
    NumberText.ParseFormat(counter);
    text
  }

  /** A text built from three pieces splits back into them. */
  lemma Pieces(a: string, b: string, c: string)
    ensures (a + b + c)[..|a|] == a
    ensures (a + b + c)[|a|..|a| + |b|] == b
    ensures (a + b + c)[|a| + |b|..] == c
  {
  }

  /** The text the tool returns, naming the configured interval. */
  function ConfirmationText(interval: int): string {
    ConfirmationOpening + NumberText.Format(interval) + "ms"
  }

  /** The tool's result: a single text item confirming the interval. */
  function Confirmation(interval: int): (r: ToolResult)
    ensures |r.content| == 1
    ensures r.content[0] == Text(ConfirmationText(interval))
  {
    ToolResult([Text(ConfirmationText(interval))])
  }

  /** The confirmation text determines the interval it was built from. */
  lemma ConfirmationNamesInterval(interval: int)
    ensures var text := ConfirmationText(interval);
            && |text| >= |ConfirmationOpening| + 2
            && text[..|ConfirmationOpening|] == ConfirmationOpening
            && text[|text| - 2..] == "ms"
            && NumberText.Parsable(text[|ConfirmationOpening|..|text| - 2])
            && NumberText.Parse(text[|ConfirmationOpening|..|text| - 2]) == interval
  {
    var text := ConfirmationText(interval);
    assert text[|ConfirmationOpening|..|text| - 2] == NumberText.Format(interval);
    assert text[..|ConfirmationOpening|] == ConfirmationOpening;
    NumberText.ParseFormat(interval);
  }

  /** The counters of the first k attempts whose send succeeded. */
  function DeliveredCounters(k: nat, ok: seq<bool>): set<int>
    requires k <= |ok|
  {
    set i | 0 <= i < k && ok[i] :: i + 1
  }

  /** How many of the given sends succeeded. */
  function Successes(ok: seq<bool>): nat {
    if ok == [] then 0 else Successes(ok[..|ok| - 1]) + (if ok[|ok| - 1] then 1 else 0)
  }

  /**
   * A failed send loses its own notification and nothing else: counter c
   * gets through exactly when it was attempted and its send succeeded.
   */
  lemma DeliveredExactly(k: nat, ok: seq<bool>, c: int)
    requires k <= |ok|
    ensures c in DeliveredCounters(k, ok) <==> 1 <= c <= k && ok[c - 1]
  {
    if 1 <= c <= k && ok[c - 1] {
      assert c == (c - 1) + 1;
    }
  }

  lemma DeliveredStep(k: nat, ok: seq<bool>)
    requires k < |ok|
    ensures DeliveredCounters(k + 1, ok) == DeliveredCounters(k, ok) + (if ok[k] then {k + 1} else {})
    ensures k + 1 !in DeliveredCounters(k, ok)
  {
    var before, after := DeliveredCounters(k, ok), DeliveredCounters(k + 1, ok);
    var added: set<int> := if ok[k] then {k + 1} else {};
    forall c | c in after
      ensures c in before || c in added
    {
      DeliveredExactly(k + 1, ok, c);
      DeliveredExactly(k, ok, c);
    }
    forall c | c in before || c in added
      ensures c in after
    {
      DeliveredExactly(k + 1, ok, c);
      DeliveredExactly(k, ok, c);
    }
    DeliveredExactly(k, ok, k + 1);
  }

  /** The client receives as many notifications as there were successful sends. */
  lemma {:induction false} DeliveredCount(k: nat, ok: seq<bool>)
    requires k <= |ok|
    ensures |DeliveredCounters(k, ok)| == Successes(ok[..k])
  {
    if k > 0 {
      DeliveredCount(k - 1, ok);
      DeliveredStep(k - 1, ok);
      assert ok[..k][..k - 1] == ok[..k - 1];
    } else {
      assert DeliveredCounters(0, ok) == {};
    }
  }

  /** When no send fails, every counter 1..k gets through. */
  lemma AllDeliveredWhenSendsSucceed(k: nat, ok: seq<bool>)
    requires k <= |ok|
    requires forall i :: 0 <= i < k ==> ok[i]
    ensures forall c :: 1 <= c <= k ==> c in DeliveredCounters(k, ok)
  {
    forall c | 1 <= c <= k
      ensures c in DeliveredCounters(k, ok)
    {
      DeliveredExactly(k, ok, c);
    }
  }

  /**
   * The tool's handler. Interval and count are the arguments after
   * defaulting; the sleep between sends is not modelled.
   */
  method Run(interval: int, count: int, sendOk: seq<bool>)
    returns (sent: seq<Notification>, delivered: set<int>, outcome: StreamOutcome)
    // every attempt is numbered by the loop's counter: 1, 2, ... with no gap or repeat,
    // whatever the send outcomes
    ensures forall i :: 0 <= i < |sent| ==> sent[i] == Numbered(i + 1)
    // a positive count gives exactly count attempts and then the confirmation
    ensures count > 0 && |sendOk| >= count ==> |sent| == count && outcome == Finished(Confirmation(interval))
    ensures count > 0 && |sendOk| < count ==> |sent| == |sendOk| && outcome == StillRunning(|sendOk|)
    // a negative count sends nothing and returns at once
    ensures count < 0 ==> sent == [] && outcome == Finished(Confirmation(interval))
    // a zero count never leaves the loop, however long it is observed
    ensures count == 0 ==> |sent| == |sendOk| && outcome == StillRunning(|sendOk|)
    // the counters that reached the client are those of the attempts whose send succeeded
    ensures |sent| <= |sendOk| && delivered == DeliveredCounters(|sent|, sendOk)
  {
    var counter := 0;
    sent, delivered := [], {};
    while (count == 0 || counter < count) && counter < |sendOk|
      invariant 0 <= counter <= |sendOk|
      invariant count > 0 ==> counter <= count
      invariant count < 0 ==> counter == 0
      invariant sent == Attempts(counter)
      invariant delivered == DeliveredCounters(counter, sendOk)
    {
      var notification := Numbered(counter + 1);
      DeliveredStep(counter, sendOk);
      counter := counter + 1;
      sent := sent + [notification];
      if sendOk[counter - 1] {
        delivered := delivered + {counter};
      }
      // a failed send is only logged: the loop goes on with the next counter
    }
    if count == 0 || counter < count {
      outcome := StillRunning(counter);
    } else {
      outcome := Finished(Confirmation(interval));
    }
  }

  /**
   * Without arguments the tool attempts ten notifications numbered 1..10 and
   * confirms "every 100ms".
   */
  lemma DefaultsSendTen()
    ensures WithDefaults(None, None) == (100, 10)
    ensures var attempts := Attempts(WithDefaults(None, None).1);
            |attempts| == 10 && attempts[0].counter == 1 && attempts[9].counter == 10
    ensures ConfirmationText(WithDefaults(None, None).0) ==
              "Started sending periodic notifications every 100ms"
  {
    assert NumberText.FormatNat(1) == "1";
    assert NumberText.FormatNat(10) == "10";
    assert NumberText.FormatNat(100) == "100";
  }
}
