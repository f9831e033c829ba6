/** The two notification sinks, seen from the router: each call is an effect
    whose success or failure is read off an outcome script. */
module Sinks {
  import opened Wrappers
  import opened Slack
  import opened Pagerduty

  /** What the k-th sink call of an invocation reports: delivered, or the
      sender's error text. */
  datatype Outcome = Delivered | Failed(reason: string)

  /** A sink call: a chat message or a paging incident. */
  datatype Effect = Chat(message: SlackMessage) | Page(incident: Incident)

  /** The sink calls made, in order (including a failed last one), and the status returned. */
  datatype Run = Run(effects: seq<Effect>, status: Status)

  /** The outcome of call number `k`; calls past the end of the script are delivered. */
  function OutcomeAt(oracle: seq<Outcome>, k: nat): (r: Outcome)
  {
    if k < |oracle| then oracle[k] else Delivered
  }

  /** One blocking sink call, made as call number `at`. */
  function Call(e: Effect, oracle: seq<Outcome>, at: nat): (r: Run)
    ensures r.effects == [e]
    ensures r.status.Ok? <==> OutcomeAt(oracle, at).Delivered?
    ensures r.status.Err? ==> r.status.msg == OutcomeAt(oracle, at).reason
  {
    match OutcomeAt(oracle, at)
    case Delivered => Run([e], Ok)
    case Failed(why) => Run([e], Err(why))
  }

  /** `errors.New(prefix + err.Error())` on the error path; success passes through. */
  function WithPrefix(prefix: string, r: Run): (w: Run)
    ensures w.effects == r.effects
    ensures w.status.Ok? <==> r.status.Ok?
    ensures w.status.Err? ==> w.status.msg == prefix + r.status.msg
  {
    if r.status.Err? then Run(r.effects, Err(prefix + r.status.msg)) else r
  }

  /** Effects already made, followed by a later run. */
  function Prepend(done: seq<Effect>, r: Run): (p: Run)
  {
    Run(done + r.effects, r.status)
  }

  /** Call number `at + j` was delivered. */
  predicate DeliveredAt(oracle: seq<Outcome>, at: nat, j: nat)
  {
    OutcomeAt(oracle, at + j).Delivered?
  }

  lemma PrependPrepend(a: seq<Effect>, b: seq<Effect>, r: Run)
    ensures Prepend(a, Prepend(b, r)) == Prepend(a + b, r)
  {
    assert a + (b + r.effects) == (a + b) + r.effects;
  }

  /** Fail-fast at the sink level: no call follows a failed call, and a
      successful run had every call delivered. */
  ghost predicate StopsAtFirstFailure(r: Run, oracle: seq<Outcome>, at: nat)
  {
    (forall j :: 0 <= j < |r.effects| - 1 ==> DeliveredAt(oracle, at, j)) &&
    (r.status.Ok? ==> forall j :: 0 <= j < |r.effects| ==> DeliveredAt(oracle, at, j))
  }

  /** The chat effect of a failing alarm: one attachment coloured Error. */
  ghost predicate IsAlarmChat(e: Effect)
  {
    e.Chat? && |e.message.attachments| == 1 && e.message.attachments[0].color == Error
  }

  /** Every paging call comes straight after a delivered Error-coloured chat message. */
  ghost predicate PagesFollowAlarmChat(r: Run, oracle: seq<Outcome>, at: nat)
  {
    forall j :: 0 <= j < |r.effects| && r.effects[j].Page? ==>
      j > 0 && IsAlarmChat(r.effects[j - 1]) && DeliveredAt(oracle, at, j - 1)
  }

  ghost predicate WellBehaved(r: Run, oracle: seq<Outcome>, at: nat)
  {
    StopsAtFirstFailure(r, oracle, at) && PagesFollowAlarmChat(r, oracle, at)
  }

  /** A run that succeeded, followed by a run started right after its calls,
      keeps both sink-level properties. */
  lemma PrependWellBehaved(first: Run, rest: Run, oracle: seq<Outcome>, at: nat)
    requires first.status.Ok?
    requires WellBehaved(first, oracle, at)
    requires WellBehaved(rest, oracle, at + |first.effects|)
    ensures WellBehaved(Prepend(first.effects, rest), oracle, at)
  {
    var n := |first.effects|;
    var r := Prepend(first.effects, rest);
    forall j | 0 <= j < |r.effects| - 1
      ensures DeliveredAt(oracle, at, j)
    {
      if j >= n {
        assert DeliveredAt(oracle, at + n, j - n);
      }
    }
    if r.status.Ok? {
      forall j | 0 <= j < |r.effects|
        ensures DeliveredAt(oracle, at, j)
      {
        if j >= n {
          assert DeliveredAt(oracle, at + n, j - n);
        }
      }
    }
    forall j | 0 <= j < |r.effects| && r.effects[j].Page?
      ensures j > 0 && IsAlarmChat(r.effects[j - 1]) && DeliveredAt(oracle, at, j - 1)
    {
      if j >= n {
        assert rest.effects[j - n].Page?;
        assert r.effects[j - 1] == rest.effects[j - n - 1];
        assert DeliveredAt(oracle, at + n, j - n - 1);
      } else {
        assert r.effects[j] == first.effects[j];
      }
    }
  }
}
