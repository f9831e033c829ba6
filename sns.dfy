/** Classification of queue-delivered (SNS) records: monitoring alarms, RDS
    notifications and plain messages, with the chat message and the paging
    incident each one yields. */
module Sns {
  import opened Wrappers
  import opened Slack
  import opened Pagerduty
  import opened Sinks
  import Strings

  // ---------------------------------------------------------------------------
  // Decoded inputs

  /** A metric dimension of the alarm's trigger. */
  datatype Dimension = Dimension(name: string, value: string)

  datatype Trigger = Trigger(
    metricName: string,
    namespace: string,
    unit: string,
    evaluationPeriods: int,
    comparisonOperator: string,
    dimensions: seq<Dimension>)

  /** The monitoring alarm carried, JSON-encoded, in a record's message text. */
  datatype Alarm = Alarm(
    alarmName: string,
    alarmDescription: string,
    awsAccountId: string,
    newStateValue: string,
    newStateReason: string,
    stateChangeTime: string,
    region: string,
    oldStateValue: string,
    trigger: Trigger)

  /** The notification inside a record. `alarm` is what decoding `message` as
      an alarm yields; it is consulted only for alarm subjects. */
  datatype SnsMessage = SnsMessage(
    messageId: string,
    topicArn: string,
    subject: string,
    message: string,
    alarm: Decoded<Alarm>)

  datatype SnsRecord = SnsRecord(eventVersion: string, eventSource: string, sns: SnsMessage)

  // ---------------------------------------------------------------------------
  // Constants

  const AlarmMarker := "ALARM:"
  const OkMarker := "OK:"
  const RdsMarker := "RDS Notification Message"
  const IncidentKeyStem := "incident"

  const RecordListPrefix := "could not unmarshal SNS record list: "
  const RecordPrefix := "could not process SNS record: "
  const AlarmDecodePrefix := "could not unmarshal Cloudwatch Alarm payload: "

  // ---------------------------------------------------------------------------
  // Classification

  /** A subject names a monitoring alarm iff it carries either state marker. */
  predicate IsAlarm(subject: string)
  {
    Strings.Contains(subject, AlarmMarker) || Strings.Contains(subject, OkMarker)
  }

  /** The alarm is failing iff the subject carries the ALARM marker. */
  predicate IsFailing(subject: string)
    ensures IsFailing(subject) ==> IsAlarm(subject)
  {
    Strings.Contains(subject, AlarmMarker)
  }

  /** A subject carrying the ALARM marker is a failing alarm, even when it also
      carries the OK marker; one carrying only the OK marker is a recovered alarm. */
  lemma SubjectClassification(a: string, b: string, c: string)
    ensures IsAlarm(a + AlarmMarker + b) && IsFailing(a + AlarmMarker + b)
    ensures IsAlarm(a + OkMarker + b)
    ensures IsFailing(a + AlarmMarker + b + OkMarker + c) && IsFailing(a + OkMarker + b + AlarmMarker + c)
  {
    Strings.ContainsInfix(a, AlarmMarker, b);
    Strings.ContainsInfix(a, OkMarker, b);
    assert a + AlarmMarker + b + OkMarker + c == a + AlarmMarker + (b + OkMarker + c);
    Strings.ContainsInfix(a, AlarmMarker, b + OkMarker + c);
    assert a + OkMarker + b + AlarmMarker + c == (a + OkMarker + b) + AlarmMarker + c;
    Strings.ContainsInfix(a + OkMarker + b, AlarmMarker, c);
  }

  // ---------------------------------------------------------------------------
  // The alarm's chat message

  function DimensionField(d: Dimension): (r: SlackField)
  {
    SlackField(d.name, d.value, true)
  }

  /** One narrow field per dimension, in dimension order. */
  function DimensionFields(dims: seq<Dimension>): (r: seq<SlackField>)
    ensures |r| == |dims|
    ensures forall i :: 0 <= i < |dims| ==> r[i] == SlackField(dims[i].name, dims[i].value, true)
  {
    if dims == [] then [] else [DimensionField(dims[0])] + DimensionFields(dims[1..])
  }

  function AlarmFields(subject: string, alarm: Alarm): (r: seq<SlackField>)
    ensures |r| == |alarm.trigger.dimensions| + 3
  {
    [SlackField(subject, alarm.newStateReason, false)]
    + DimensionFields(alarm.trigger.dimensions)
    + [SlackField("Namespace", alarm.trigger.namespace, true),
       SlackField("MetricName", alarm.trigger.metricName, true)]
  }

  function AlarmColor(subject: string): (r: Color)
  {
    if IsFailing(subject) then Error else Success
  }

  function AlarmMessage(subject: string, alarm: Alarm): (r: SlackMessage)
  {
    Single(alarm.newStateReason, AlarmColor(subject), AlarmFields(subject, alarm))
  }

  /** The field list has |dims| + 3 rows: the wide subject/reason row, one
      narrow row per dimension in input order, then Namespace and MetricName. */
  lemma AlarmFieldsShape(subject: string, alarm: Alarm)
    ensures var f := AlarmFields(subject, alarm);
            var dims := alarm.trigger.dimensions;
            var n := |dims|;
            |f| == n + 3 &&
            f[0] == SlackField(subject, alarm.newStateReason, false) &&
            (forall i :: 0 <= i < n ==> f[i + 1] == SlackField(dims[i].name, dims[i].value, true)) &&
            f[n + 1] == SlackField("Namespace", alarm.trigger.namespace, true) &&
            f[n + 2] == SlackField("MetricName", alarm.trigger.metricName, true)
  {
  }

  /** The alarm message's colour is Error iff failing, Success otherwise, and
      its fallback text is the state-change reason. */
  lemma AlarmMessageColor(subject: string, alarm: Alarm)
    ensures |AlarmMessage(subject, alarm).attachments| == 1
    ensures AlarmMessage(subject, alarm).attachments[0].color == Error <==> IsFailing(subject)
    ensures AlarmMessage(subject, alarm).attachments[0].color == Success <==> !IsFailing(subject)
    ensures AlarmMessage(subject, alarm).attachments[0].fallback == alarm.newStateReason
  {
  }

  /** Builds the field list as processSNSRecord does (sns.go:168-201): the
      head row, then one appended row per dimension, then the two trailing rows. */
  method BuildAlarmFields(subject: string, alarm: Alarm) returns (fields: seq<SlackField>)
    ensures fields == AlarmFields(subject, alarm)
  {
    var head := SlackField(subject, alarm.newStateReason, false);
    var dims := alarm.trigger.dimensions;
    fields := [head];
    for i := 0 to |dims|
      invariant |fields| == i + 1 && fields[0] == head
      invariant forall j :: 0 <= j < i ==> fields[j + 1] == DimensionField(dims[j])
    {
      fields := fields + [DimensionField(dims[i])];
    }
    assert fields == [head] + DimensionFields(dims);
    fields := fields + [SlackField("Namespace", alarm.trigger.namespace, true)];
    fields := fields + [SlackField("MetricName", alarm.trigger.metricName, true)];
  }

  // ---------------------------------------------------------------------------
  // The failing alarm's incident

  /** The dimension values concatenated in order. */
  function DimensionValues(dims: seq<Dimension>): (r: string)
  {
    if dims == [] then "" else DimensionValues(dims[..|dims| - 1]) + dims[|dims| - 1].value
  }

  /** Dimension name to value; a later dimension overwrites an earlier one of the same name. */
  function DetailFields(dims: seq<Dimension>): (r: map<string, string>)
  {
    if dims == [] then map[]
    else DetailFields(dims[..|dims| - 1])[dims[|dims| - 1].name := dims[|dims| - 1].value]
  }

  function IncidentKey(dims: seq<Dimension>): (r: string)
    ensures IncidentKeyStem <= r
  {
    IncidentKeyStem + DimensionValues(dims)
  }

  function AlarmIncident(subject: string, alarm: Alarm): (r: Incident)
  {
    var dims := alarm.trigger.dimensions;
    Incident(subject + "-" + alarm.newStateReason, IncidentKey(dims), IncidentDetails(DetailFields(dims)))
  }

  /** Builds the incident like the loop at sns.go:218-224: the key grows and
      the detail map is updated once per dimension. */
  method BuildIncident(subject: string, alarm: Alarm) returns (incident: Incident)
    ensures incident == AlarmIncident(subject, alarm)
  {
    var dims := alarm.trigger.dimensions;
    var key := IncidentKeyStem;
    var details: map<string, string> := map[];
    for i := 0 to |dims|
      invariant key == IncidentKey(dims[..i])
      invariant details == DetailFields(dims[..i])
    {
      assert dims[..i + 1][..i] == dims[..i];
      key := key + dims[i].value;
      details := details[dims[i].name := dims[i].value];
    }
    assert dims[..|dims|] == dims;
    incident := Incident(subject + "-" + alarm.newStateReason, key, IncidentDetails(details));
  }

  /** Concatenating values distributes over splitting the dimension list. */
  lemma {:induction false} DimensionValuesAppend(a: seq<Dimension>, b: seq<Dimension>)
    ensures DimensionValues(a + b) == DimensionValues(a) + DimensionValues(b)
    decreases |b|
  {
    if b == [] {
      assert a + b == a;
    } else {
      var b' := b[..|b| - 1];
      assert (a + b)[..|a + b| - 1] == a + b';
      DimensionValuesAppend(a, b');
    }
  }

  /** The key is the stem followed by each value in turn, front to back;
      with no dimensions it is the bare stem. */
  lemma IncidentKeyCons(d: Dimension, rest: seq<Dimension>)
    ensures IncidentKey([d] + rest) == IncidentKeyStem + d.value + DimensionValues(rest)
    ensures IncidentKey([]) == IncidentKeyStem
  {
    DimensionValuesAppend([d], rest);
    assert DimensionValues([d]) == DimensionValues([]) + d.value;
  }

  /** Two alarms whose dimensions carry the same values in the same order share
      an incident key, whatever the dimension names. */
  lemma {:induction false} IncidentKeyDependsOnValuesOnly(d1: seq<Dimension>, d2: seq<Dimension>)
    requires |d1| == |d2|
    requires forall i :: 0 <= i < |d1| ==> d1[i].value == d2[i].value
    ensures IncidentKey(d1) == IncidentKey(d2)
    ensures DimensionValues(d1) == DimensionValues(d2)
    decreases |d1|
  {
    if d1 != [] {
      IncidentKeyDependsOnValuesOnly(d1[..|d1| - 1], d2[..|d2| - 1]);
    }
  }

  /** A name is a detail key iff some dimension has that name. */
  lemma {:induction false} DetailFieldsDomain(dims: seq<Dimension>, k: string)
    ensures k in DetailFields(dims) <==> exists i :: 0 <= i < |dims| && dims[i].name == k
    decreases |dims|
  {
    if dims != [] {
      var init := dims[..|dims| - 1];
      DetailFieldsDomain(init, k);
      if k in DetailFields(init) {
        var i :| 0 <= i < |init| && init[i].name == k;
        assert dims[i].name == k;
      }
      if exists i :: 0 <= i < |dims| && dims[i].name == k {
        var i :| 0 <= i < |dims| && dims[i].name == k;
        if i < |init| {
          assert init[i].name == k;
        }
      }
    }
  }

  /** The detail value for a name is the value of the last dimension with that name. */
  lemma {:induction false} DetailFieldsLastWins(dims: seq<Dimension>, i: nat)
    requires i < |dims|
    requires forall j :: i < j < |dims| ==> dims[j].name != dims[i].name
    ensures dims[i].name in DetailFields(dims)
    ensures DetailFields(dims)[dims[i].name] == dims[i].value
    decreases |dims|
  {
    if i < |dims| - 1 {
      var init := dims[..|dims| - 1];
      forall j | i < j < |init|
        ensures init[j].name != init[i].name
      {
        assert init[j] == dims[j];
      }
      DetailFieldsLastWins(init, i);
    }
  }

  /** An example: dimensions az=us-east-1b, db=primary. */
  lemma IncidentExample(subject: string, alarm: Alarm)
    requires alarm.trigger.dimensions == [Dimension("az", "us-east-1b"), Dimension("db", "primary")]
    ensures AlarmIncident(subject, alarm).incidentKey == "incidentus-east-1bprimary"
    ensures AlarmIncident(subject, alarm).details.fields == map["az" := "us-east-1b", "db" := "primary"]
    ensures AlarmIncident(subject, alarm).description == subject + "-" + alarm.newStateReason
  {
    var dims := alarm.trigger.dimensions;
    assert dims[..1] == [Dimension("az", "us-east-1b")];
    assert dims[..1][..0] == [];
    assert DimensionValues(dims[..1]) == "us-east-1b";
    assert DimensionValues(dims) == "us-east-1b" + "primary";
    assert IncidentKey(dims) == IncidentKeyStem + ("us-east-1b" + "primary");
    assert DetailFields(dims[..1]) == map["az" := "us-east-1b"];
  }

  // ---------------------------------------------------------------------------
  // Non-alarm records

  /** RDS notifications are forwarded as a plain message for now. */
  function RdsMessage(sns: SnsMessage): (r: SlackMessage)
  {
    Single(sns.message, Info, [SlackField(sns.subject, sns.message, false)])
  }

  /** Any other subject: the subject and the raw message text in one wide field. */
  function PlainMessage(sns: SnsMessage): (r: SlackMessage)
  {
    Single(sns.message, Info, [SlackField(sns.subject, sns.message, false)])
  }

  /** The RDS and catch-all branches are two names for the same behaviour. */
  lemma RdsMatchesPlain(sns: SnsMessage)
    ensures RdsMessage(sns) == PlainMessage(sns)
  {
  }

  // ---------------------------------------------------------------------------
  // One record, and a batch

  /** What processing one record does, making its first sink call as call number `at`. */
  function RecordRun(record: SnsRecord, oracle: seq<Outcome>, at: nat): (r: Run)
  {
    var subject := record.sns.subject;
    if IsAlarm(subject) then
      match record.sns.alarm
      case DecodeError(why) => Run([], Err(AlarmDecodePrefix + why))
      case Parsed(alarm) =>
        var chat := Call(Chat(AlarmMessage(subject, alarm)), oracle, at);
        if chat.status.Err? then chat
        else if IsFailing(subject) then
          Prepend(chat.effects, Call(Page(AlarmIncident(subject, alarm)), oracle, at + 1))
        else chat
    else if Strings.Contains(subject, RdsMarker) then
      Call(Chat(RdsMessage(record.sns)), oracle, at)
    else
      Call(Chat(PlainMessage(record.sns)), oracle, at)
  }

  /** The per-record processor the batch applies, for a given outcome script. */
  function RecordStep(oracle: seq<Outcome>): (step: (SnsRecord, nat) -> Run)
  {
    (record: SnsRecord, at: nat) => RecordRun(record, oracle, at)
  }

  /** The batch loop over any record processor: records in list order, the
      first failing record ends the batch and its error gets the batch prefix. */
  function Batch(process: (SnsRecord, nat) -> Run, records: seq<SnsRecord>, at: nat): (r: Run)
    decreases |records|
  {
    if records == [] then Run([], Ok)
    else
      var first := process(records[0], at);
      if first.status.Err? then WithPrefix(RecordPrefix, first)
      else Prepend(first.effects, Batch(process, records[1..], at + |first.effects|))
  }

  function RecordsRun(records: seq<SnsRecord>, oracle: seq<Outcome>, at: nat): (r: Run)
  {
    Batch(RecordStep(oracle), records, at)
  }

  /** The strictly decoded record list, then the batch. */
  function ProcessRecordsRun(list: Decoded<seq<SnsRecord>>, oracle: seq<Outcome>, at: nat): (r: Run)
  {
    match list
    case DecodeError(why) => Run([], Err(RecordListPrefix + why))
    case Parsed(records) => RecordsRun(records, oracle, at)
  }

  // ---------------------------------------------------------------------------
  // Properties of one record

  /** An alarm whose embedded message does not decode fails before any sink call. */
  lemma AlarmDecodeFailure(record: SnsRecord, oracle: seq<Outcome>, at: nat)
    requires IsAlarm(record.sns.subject) && record.sns.alarm.DecodeError?
    ensures RecordRun(record, oracle, at) == Run([], Err(AlarmDecodePrefix + record.sns.alarm.reason))
  {
  }

  /** A decoded alarm: its chat message is sent first; a failing alarm whose
      chat call was delivered then triggers its incident, and nothing else
      happens. */
  lemma AlarmRecord(record: SnsRecord, oracle: seq<Outcome>, at: nat)
    requires IsAlarm(record.sns.subject) && record.sns.alarm.Parsed?
    ensures var subject, alarm := record.sns.subject, record.sns.alarm.value;
            var r := RecordRun(record, oracle, at);
            var paged := IsFailing(subject) && DeliveredAt(oracle, at, 0);
            r.effects == [Chat(AlarmMessage(subject, alarm))] + (if paged then [Page(AlarmIncident(subject, alarm))] else []) &&
            (r.status.Ok? <==> DeliveredAt(oracle, at, 0) && (paged ==> DeliveredAt(oracle, at, 1))) &&
            (r.status.Err? ==> r.status.msg == OutcomeAt(oracle, at + |r.effects| - 1).reason)
  {
  }

  /** A record pages iff it is a decoded failing alarm whose chat call was delivered. */
  lemma PagesIff(record: SnsRecord, oracle: seq<Outcome>, at: nat)
    ensures (exists j :: 0 <= j < |RecordRun(record, oracle, at).effects| && RecordRun(record, oracle, at).effects[j].Page?)
            <==> IsFailing(record.sns.subject) && record.sns.alarm.Parsed? && DeliveredAt(oracle, at, 0)
  {
    var r := RecordRun(record, oracle, at);
    if IsFailing(record.sns.subject) && record.sns.alarm.Parsed? && DeliveredAt(oracle, at, 0) {
      assert r.effects[1].Page?;
    }
  }

  /** The chat message's colour: Error for a failing alarm, Success for a
      recovered one, Info for every other subject. */
  lemma RecordColor(record: SnsRecord, oracle: seq<Outcome>, at: nat)
    requires RecordRun(record, oracle, at).effects != []
    ensures var e := RecordRun(record, oracle, at).effects[0];
            var subject := record.sns.subject;
            e.Chat? && |e.message.attachments| == 1 &&
            e.message.attachments[0].color ==
              (if !IsAlarm(subject) then Info else if IsFailing(subject) then Error else Success)
  {
  }

  /** A subject with neither alarm marker, RDS or not, yields one Info message
      with the single wide field (subject, message) and no incident. */
  lemma NonAlarmRecord(record: SnsRecord, oracle: seq<Outcome>, at: nat)
    requires !IsAlarm(record.sns.subject)
    ensures var sns := record.sns;
            RecordRun(record, oracle, at) ==
              Call(Chat(Single(sns.message, Info, [SlackField(sns.subject, sns.message, false)])), oracle, at)
  {
  }

  /** At most one chat message and one incident per record; the sink-level
      properties hold. */
  lemma RecordWellBehaved(record: SnsRecord, oracle: seq<Outcome>, at: nat)
    ensures |RecordRun(record, oracle, at).effects| <= 2
    ensures WellBehaved(RecordRun(record, oracle, at), oracle, at)
    ensures RecordRun(record, oracle, at).effects != [] ==> RecordRun(record, oracle, at).effects[0].Chat?
  {
    var r := RecordRun(record, oracle, at);
    if IsAlarm(record.sns.subject) && record.sns.alarm.Parsed? {
      AlarmRecord(record, oracle, at);
      AlarmMessageColor(record.sns.subject, record.sns.alarm.value);
    }
  }

  // ---------------------------------------------------------------------------
  // Properties of a batch

  /** A batch whose successful prefix is followed by more records: the later
      records start right after the prefix's calls. */
  lemma {:induction false} BatchAppend(process: (SnsRecord, nat) -> Run, done: seq<SnsRecord>, later: seq<SnsRecord>, at: nat)
    requires Batch(process, done, at).status.Ok?
    ensures var d := Batch(process, done, at);
            Batch(process, done + later, at) == Prepend(d.effects, Batch(process, later, at + |d.effects|))
    decreases |done|
  {
    if done == [] {
      assert done + later == later;
    } else {
      var all := done + later;
      var first := process(done[0], at);
      assert all[0] == done[0];
      assert all[1..] == done[1..] + later;
      var next := at + |first.effects|;
      var rest := Batch(process, done[1..], next);
      BatchAppend(process, done[1..], later, next);
      PrependPrepend(first.effects, rest.effects, Batch(process, later, next + |rest.effects|));
    }
  }

  /** Fail-fast: once a prefix of the batch fails, the records after it make
      no sink call and do not change the result. */
  lemma {:induction false} FailFast(process: (SnsRecord, nat) -> Run, done: seq<SnsRecord>, later: seq<SnsRecord>, at: nat)
    requires Batch(process, done, at).status.Err?
    ensures Batch(process, done + later, at) == Batch(process, done, at)
    decreases |done|
  {
    assert done != [];
    var first := process(done[0], at);
    assert (done + later)[0] == done[0];
    assert (done + later)[1..] == done[1..] + later;
    if first.status.Ok? {
      FailFast(process, done[1..], later, at + |first.effects|);
    }
  }

  /** A failed batch reports the failing record's error behind the batch prefix. */
  lemma {:induction false} BatchErrorPrefix(process: (SnsRecord, nat) -> Run, records: seq<SnsRecord>, at: nat)
    requires Batch(process, records, at).status.Err?
    ensures RecordPrefix <= Batch(process, records, at).status.msg
    decreases |records|
  {
    var first := process(records[0], at);
    if first.status.Ok? {
      BatchErrorPrefix(process, records[1..], at + |first.effects|);
    }
  }

  /** A batch makes at most two calls per record, and keeps the sink-level properties. */
  lemma {:induction false} RecordsWellBehaved(records: seq<SnsRecord>, oracle: seq<Outcome>, at: nat)
    ensures |RecordsRun(records, oracle, at).effects| <= 2 * |records|
    ensures WellBehaved(RecordsRun(records, oracle, at), oracle, at)
    decreases |records|
  {
    if records != [] {
      var first := RecordStep(oracle)(records[0], at);
      RecordWellBehaved(records[0], oracle, at);
      if first.status.Ok? {
        RecordsWellBehaved(records[1..], oracle, at + |first.effects|);
        PrependWellBehaved(first, RecordsRun(records[1..], oracle, at + |first.effects|), oracle, at);
      }
    }
  }

  /** A record list that fails strict decoding makes no sink call. */
  lemma RecordListDecodeFailure(list: Decoded<seq<SnsRecord>>, oracle: seq<Outcome>, at: nat)
    requires list.DecodeError?
    ensures ProcessRecordsRun(list, oracle, at) == Run([], Err(RecordListPrefix + list.reason))
  {
  }

  /** Three records where the first makes one delivered chat call (it is not a
      failing alarm, and decodes if it is a recovered one) and the second is an
      alarm that does not decode: exactly one chat call, for the first record,
      and none for the third. */
  lemma SecondOfThreeFails(r1: SnsRecord, r2: SnsRecord, r3: SnsRecord, oracle: seq<Outcome>)
    requires !IsFailing(r1.sns.subject) && (IsAlarm(r1.sns.subject) ==> r1.sns.alarm.Parsed?)
    requires DeliveredAt(oracle, 0, 0)
    requires IsAlarm(r2.sns.subject) && r2.sns.alarm.DecodeError?
    ensures var r := RecordsRun([r1, r2, r3], oracle, 0);
            |r.effects| == 1 && r.effects[0].Chat? && r.effects[0] == RecordRun(r1, oracle, 0).effects[0] &&
            r.status == Err(RecordPrefix + AlarmDecodePrefix + r2.sns.alarm.reason)
  {
    var step := RecordStep(oracle);
    var first := step(r1, 0);
    if IsAlarm(r1.sns.subject) {
      AlarmRecord(r1, oracle, 0);
    } else {
      NonAlarmRecord(r1, oracle, 0);
    }
    assert |first.effects| == 1 && first.status.Ok?;
    AlarmDecodeFailure(r2, oracle, 1);
    var second := step(r2, 1);
    assert second == Run([], Err(AlarmDecodePrefix + r2.sns.alarm.reason));
    assert [r1, r2, r3][1..] == [r2, r3];
    assert Batch(step, [r2, r3], 1) == WithPrefix(RecordPrefix, second);
  }

  /** One step of the batch loop, for any processor: a record that fails ends
      the batch with the effects so far; one that succeeds extends them. */
  lemma BatchLoopStep(process: (SnsRecord, nat) -> Run, records: seq<SnsRecord>, i: nat, at: nat,
                      effects: seq<Effect>, first: Run)
    requires i < |records|
    requires Batch(process, records, at) == Prepend(effects, Batch(process, records[i..], at + |effects|))
    requires first == process(records[i], at + |effects|)
    ensures first.status.Err? ==>
              Batch(process, records, at) == Prepend(effects, WithPrefix(RecordPrefix, first))
    ensures first.status.Ok? ==>
              Batch(process, records, at) ==
                Prepend(effects + first.effects, Batch(process, records[i + 1..], at + |effects + first.effects|))
  {
    assert records[i..][0] == records[i];
    assert records[i..][1..] == records[i + 1..];
    if first.status.Ok? {
      PrependPrepend(effects, first.effects, Batch(process, records[i + 1..], at + |effects| + |first.effects|));
    }
  }

  /** processSNSRecord, step by step. */
  method ProcessSnsRecord(record: SnsRecord, oracle: seq<Outcome>, at: nat) returns (run: Run)
    ensures run == RecordRun(record, oracle, at)
  {
    var subject := record.sns.subject;
    if Strings.Contains(subject, AlarmMarker) || Strings.Contains(subject, OkMarker) {
      var isFailing := Strings.Contains(subject, AlarmMarker);
      if record.sns.alarm.DecodeError? {
        return Run([], Err(AlarmDecodePrefix + record.sns.alarm.reason));
      }
      var alarm := record.sns.alarm.value;
      var fields := BuildAlarmFields(subject, alarm);
      var color := if isFailing then Error else Success;
      var chat := Call(Chat(Single(alarm.newStateReason, color, fields)), oracle, at);
      if chat.status.Err? {
        return chat;
      }
      if isFailing {
        var incident := BuildIncident(subject, alarm);
        var page := Call(Page(incident), oracle, at + 1);
        return Prepend(chat.effects, page);
      }
      return chat;
    } else if Strings.Contains(subject, RdsMarker) {
      return Call(Chat(RdsMessage(record.sns)), oracle, at);
    } else {
      return Call(Chat(PlainMessage(record.sns)), oracle, at);
    }
  }

  /** One turn of the loop in processSNSRecords: processes records[i] at the
      call number that follows the calls already made, and says how the run of
      the whole batch goes on from there. */
  method ProcessNextRecord(records: seq<SnsRecord>, i: nat, oracle: seq<Outcome>, at: nat, effects: seq<Effect>)
    returns (r: Run)
    requires i < |records|
    requires RecordsRun(records, oracle, at) == Prepend(effects, RecordsRun(records[i..], oracle, at + |effects|))
    ensures r == RecordRun(records[i], oracle, at + |effects|)
    ensures r.status.Err? ==> RecordsRun(records, oracle, at) == Prepend(effects, WithPrefix(RecordPrefix, r))
    ensures r.status.Ok? ==>
              RecordsRun(records, oracle, at) ==
                Prepend(effects + r.effects, RecordsRun(records[i + 1..], oracle, at + |effects + r.effects|))
  {
    r := ProcessSnsRecord(records[i], oracle, at + |effects|);
    BatchLoopStep(RecordStep(oracle), records, i, at, effects, r);
  }

  /** processSNSRecords: the fail-fast loop over the decoded records. */
  method ProcessSnsRecords(list: Decoded<seq<SnsRecord>>, oracle: seq<Outcome>, at: nat) returns (run: Run)
    ensures run == ProcessRecordsRun(list, oracle, at)
  {
    if list.DecodeError? {
      return Run([], Err(RecordListPrefix + list.reason));
    }
    var records := list.value;
    var effects: seq<Effect> := [];
    assert records[0..] == records;
    for i := 0 to |records|
      invariant RecordsRun(records, oracle, at) == Prepend(effects, RecordsRun(records[i..], oracle, at + |effects|))
    {
      var r := ProcessNextRecord(records, i, oracle, at, effects);
      if r.status.Err? {
        return Prepend(effects, WithPrefix(RecordPrefix, r));
      }
      effects := effects + r.effects;
    }
    assert records[|records|..] == [];
    return Run(effects, Ok);
  }
}
