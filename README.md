# aws-notifier event routing, modelled in Dafny

This project models the classification and routing core of aws-notifier, a
Lambda function that turns AWS events into Slack messages and PagerDuty
incidents. One invocation receives one JSON payload. Either it is a batch of
SNS records (Cloudwatch alarms, RDS notifications, plain messages) or it is a
direct Cloudwatch event (EC2 state changes, scheduled events, autoscaling
events, anything else). The router sends zero or more chat messages and
paging incidents, and returns nil or an error.

How the model is built:

- **Decoded inputs.** JSON decoding is not modelled. A `Payload` carries what
  the decoder would produce for the same raw bytes, three times over:
  - the permissive `GenericEvent` envelope;
  - the strict SNS record list;
  - the `CloudwatchEvent`.

  Each one is a `Decoded<T>`: either `Parsed(value)` or `DecodeError(reason)`.
  Nested documents are modelled the same way: the alarm inside an SNS
  message, and the EC2 detail inside an event.
- **Sinks.** A sink call is an `Effect`: `Chat(SlackMessage)` or
  `Page(Incident)`. Whether call number k succeeds comes from an outcome
  script `seq<Outcome>`. Calls past the end of the script are delivered.
- **Results.** Every processing function returns a `Run`: the sink calls
  attempted, in order (a failed last call included), plus a `Status`. The
  status is `Ok`, or `Err(msg)` where `msg` is the exact chain of error
  prefixes the code builds. The text at the end of that chain is the
  decoder's or the sink's error text, taken from the input.
- **Files.** Each core file maps to one module:
  - `main.go` becomes `Dispatch` (plus `Lists.Contains`);
  - `sns.go` becomes `Sns`;
  - `cloudwatch.go` becomes `Cloudwatch`.

  The data types from `slack.go` and `pagerduty.go` are in `Slack` and
  `Pagerduty`. The sink boundary is in `Sinks`, and Go's `strings.Contains`
  is in `Strings`.
- **Pure and imperative parts.** Pure branching is written as functions.
  `sns.go` builds things with loops, and those loops are methods proved equal
  to the specification functions:
  - `Sns.BuildAlarmFields` appends the field rows;
  - `Sns.BuildIncident` grows the incident key and updates the detail map;
  - `Sns.ProcessSnsRecord` processes one record step by step; it contains no
    loop of its own apart from the two builders above;
  - `Sns.ProcessSnsRecords` is the fail-fast loop over the decoded record
    list; each turn of that loop is `Sns.ProcessNextRecord`, which calls
    `Sns.ProcessSnsRecord`.

  The batch loop is also defined over an arbitrary record processor
  (`Sns.Batch`). This lets the fail-fast lemmas be proved once, for any
  processor.

Facts about the code that the model keeps:

- The source and detail-type constants are `aws.ec2`, `aws.events`,
  `aws.autoscaling` and `EC2 Instance State-change Notification`, as in
  cloudwatch.go:143-154. The autoscaling detail-types are the
  `EC2 Instance-launch Lifecycle Action` /
  `EC2 Instance-terminate Lifecycle Action` pair (cloudwatch.go:249) and the
  `EC2 Instance Launch Unsuccessful` / `EC2 Instance Terminate Unsuccessful`
  pair (cloudwatch.go:292).
- The autoscaling handlers declare their detail records but never decode into
  them (cloudwatch.go:250, cloudwatch.go:289). So every value they put in a
  field, apart from the title row, is the empty string. The model uses the Go
  zero values (`Cloudwatch.ZeroLifecycle`, `Cloudwatch.ZeroActivity`).
- An envelope without a nonempty record list always goes to the Cloudwatch
  path (main.go:50, main.go:60-65).
- The generic fallback returns a sink error without a prefix
  (cloudwatch.go:184-186). EC2 and autoscaling errors get the
  `failed to process … Event: ` prefix.

## Model

| member | source | states |
|---|---|---|
| Lists.Contains | main.go:15-23 | true iff some element of the list equals `el`; false on the empty list |
| Strings.ContainsIff | sns.go:159-161 | `strings.Contains(s, sub)` holds iff `sub` occurs in `s` at some offset |
| Strings.ContainsInfix | sns.go:159-161 | a string contains every infix it is built from |
| Strings.Contains | sns.go:159-161 | the empty string is always contained; a contained string is no longer than the one it is found in (full characterisation in `Strings.ContainsIff`) |
| Slack.HexInjective | slack.go:11-14 | the four colour constants are pairwise distinct literals |
| Slack.Hex | slack.go:11-14 | each colour's code is a seven-character literal: `#` followed by six upper-case hex digits |
| Sinks.Call | slack.go:36-53 | a sink call, chat here or paging in pagerduty.go:34-65, records exactly its one effect; it succeeds iff the outcome script says delivered, and otherwise returns the sink's error text |
| Sinks.WithPrefix | sns.go:149-151 | wrapping an error keeps the effects and the success/failure, and puts the prefix in front of the message |
| Sinks.PrependWellBehaved | sns.go:146-152 | a successful run followed by the next run keeps the two sink-level properties: no call after a failed call, and every incident right after a delivered Error-coloured message |
| Sns.SubjectClassification | sns.go:159-161 | a subject with `ALARM:` is a failing alarm, also when `OK:` appears too; a subject with `OK:` is an alarm |
| Sns.IsAlarm | sns.go:159 | no ensures; specified by lemma `Sns.SubjectClassification` and used by every record lemma |
| Sns.IsFailing | sns.go:161 | a failing subject is always an alarm subject |
| Sns.DimensionFields | sns.go:176-182 | one narrow (name, value) field per dimension, in input order |
| Sns.AlarmFields | sns.go:168-201 | the field list has one row per dimension plus three; the rows themselves are stated by `Sns.AlarmFieldsShape` |
| Sns.AlarmMessage | sns.go:203-211 | no ensures; specified by lemma `Sns.AlarmMessageColor` (one attachment, fallback, colour) and `Sns.AlarmFieldsShape` (its fields) |
| Sns.AlarmColor | sns.go:184-189 | no ensures; specified by lemmas `Sns.AlarmMessageColor` (Error iff failing, else Success) and `Sns.RecordColor` |
| Sns.AlarmFieldsShape | sns.go:168-201 | the alarm message has \|dims\|+3 fields: (subject, reason, wide), the dimension rows in order, then Namespace and MetricName (narrow) |
| Sns.AlarmMessageColor | sns.go:184-211 | colour Error iff the subject is failing, else Success; the fallback is the state-change reason |
| Sns.BuildAlarmFields | sns.go:168-201 | the append loop builds exactly the specified field list |
| Sns.BuildIncident | sns.go:217-232 | the key and map loop builds exactly the specified incident |
| Sns.DimensionValues | sns.go:221-222 | no ensures; specified by lemmas `Sns.DimensionValuesAppend`, `Sns.IncidentKeyCons` and `Sns.IncidentExample` |
| Sns.DetailFields | sns.go:219-224 | no ensures; specified by lemmas `Sns.DetailFieldsDomain`, `Sns.DetailFieldsLastWins` and `Sns.IncidentExample` |
| Sns.IncidentKey | sns.go:218-222 | every incident key starts with "incident" |
| Sns.AlarmIncident | sns.go:217-232 | no ensures; specified by lemmas `Sns.IncidentKeyDependsOnValuesOnly`, `Sns.DetailFieldsDomain` and `Sns.IncidentExample`, and equal to what `Sns.BuildIncident` builds |
| Sns.DimensionValuesAppend | sns.go:221-222 | concatenating dimension values distributes over splitting the dimension list |
| Sns.IncidentKeyCons | sns.go:218-222 | the key is "incident" followed by each value front to back; with no dimensions it is just "incident" |
| Sns.IncidentKeyDependsOnValuesOnly | sns.go:218-222 | alarms whose dimensions have the same values in the same order share an incident key (coalescing), whatever the names |
| Sns.DetailFieldsDomain | sns.go:219-224 | a name is a detail key iff some dimension has that name |
| Sns.DetailFieldsLastWins | sns.go:219-224 | the detail value for a name is the value of the last dimension with that name |
| Sns.IncidentExample | sns.go:217-232 | dimensions az=us-east-1b, db=primary give key "incidentus-east-1bprimary", map {az: us-east-1b, db: primary} and description subject + "-" + reason |
| Sns.RdsMatchesPlain | sns.go:242-289 | the RDS branch and the catch-all branch build the same message |
| Sns.RdsMessage | sns.go:245-259 | no ensures; specified by lemmas `Sns.NonAlarmRecord` and `Sns.RdsMatchesPlain` |
| Sns.PlainMessage | sns.go:268-282 | no ensures; specified by lemmas `Sns.NonAlarmRecord` and `Sns.RdsMatchesPlain` |
| Sns.RecordRun | sns.go:157-290 | no ensures; specified by lemmas `Sns.AlarmDecodeFailure`, `Sns.AlarmRecord`, `Sns.PagesIff`, `Sns.RecordColor`, `Sns.NonAlarmRecord` and `Sns.RecordWellBehaved` |
| Sns.Batch | sns.go:146-152 | no ensures; specified by lemmas `Sns.BatchAppend`, `Sns.FailFast` and `Sns.BatchErrorPrefix` for any record processor |
| Sns.RecordsRun | sns.go:146-154 | no ensures; the batch over `Sns.RecordRun`, specified by lemmas `Sns.RecordsWellBehaved` and `Sns.SecondOfThreeFails` |
| Sns.ProcessRecordsRun | sns.go:138-155 | no ensures; specified by lemma `Sns.RecordListDecodeFailure` and by `Sns.RecordsRun` on a decoded list |
| Sns.AlarmDecodeFailure | sns.go:163-166 | an alarm whose message does not decode makes no sink call and returns the prefixed decode error |
| Sns.AlarmRecord | sns.go:159-241 | a decoded alarm: the alarm message is sent first; the incident follows iff failing and the chat call was delivered; success iff every call made was delivered; on failure the error is the failed call's own text, unprefixed |
| Sns.PagesIff | sns.go:213-238 | a record pages iff it is a decoded failing alarm whose chat call was delivered |
| Sns.RecordColor | sns.go:184-189 | the chat colour is Error for failing alarms, Success for recovered alarms and Info for every other subject |
| Sns.NonAlarmRecord | sns.go:242-289 | a subject without an alarm marker, RDS or not, yields one Info message with fallback = message and the single wide field (subject, message), and no incident |
| Sns.RecordWellBehaved | sns.go:157-290 | at most two calls per record, the first one a chat message; no call after a failed call; an incident only right after a delivered Error message |
| Sns.BatchAppend | sns.go:146-152 | after a successful prefix, the following records start at the next call number and their effects are appended |
| Sns.FailFast | sns.go:146-152 | once a prefix of the batch fails, later records add no effects and do not change the result |
| Sns.BatchErrorPrefix | sns.go:149-151 | a failed batch's error starts with "could not process SNS record: " |
| Sns.RecordsWellBehaved | sns.go:146-154 | a batch makes at most two calls per record and keeps both sink-level properties |
| Sns.RecordListDecodeFailure | sns.go:141-144 | a record list that fails strict decoding makes no sink call and returns the prefixed error |
| Sns.SecondOfThreeFails | sns.go:146-152 | with three records, where the first is not a failing alarm (and decodes if it is a recovered alarm) and its chat call is delivered, and the second is an alarm that does not decode: exactly one chat call, for the first record, none for the third, and the doubly prefixed error |
| Sns.ProcessSnsRecord | sns.go:157-290 | the step-by-step record processor equals the record specification |
| Sns.ProcessNextRecord | sns.go:146-151 | one turn of the loop: its run is the record's specified run, and the batch's run continues with it, ending with the prefixed error if it failed |
| Sns.ProcessSnsRecords | sns.go:138-155 | the fail-fast loop equals the batch specification |
| Cloudwatch.Ec2ColorIff | cloudwatch.go:205-210 | Warn iff the state is shutting-down, terminated, stopping or stopped; Info otherwise |
| Cloudwatch.Ec2ColorExamples | cloudwatch.go:205-210 | "terminated" is Warn, "pending" is Info |
| Cloudwatch.Ec2Color | cloudwatch.go:205-210 | the colour is Warn or Info; which one is stated by `Cloudwatch.Ec2ColorIff` |
| Cloudwatch.Ec2Message | cloudwatch.go:212-237 | no ensures; specified by lemma `Cloudwatch.Ec2StateChangeEvent` |
| Cloudwatch.Ec2StateChangeRun | cloudwatch.go:196-244 | no ensures; specified by lemma `Cloudwatch.Ec2StateChangeEvent` |
| Cloudwatch.ActivityColor | cloudwatch.go:291-296 | the colour is Warn or Info; which one is stated by `Cloudwatch.ActivityShape` |
| Cloudwatch.LifecycleMessage | cloudwatch.go:252-282 | no ensures; specified by lemma `Cloudwatch.LifecycleShape` |
| Cloudwatch.ActivityMessage | cloudwatch.go:298-333 | no ensures; specified by lemma `Cloudwatch.ActivityShape` |
| Cloudwatch.AutoscalingRun | cloudwatch.go:246-341 | no ensures; specified by lemmas `Cloudwatch.LifecycleShape`, `Cloudwatch.ActivityShape`, `Cloudwatch.AutoscalingValuesEmpty` and `Cloudwatch.AutoscalingEvent` |
| Cloudwatch.EventDecodeFailure | cloudwatch.go:137-140 | an event that does not decode makes no sink call and returns the prefixed error |
| Cloudwatch.IgnoredEvents | cloudwatch.go:143-153 | scheduled events, and EC2 events that are not state changes, return success with no sink call |
| Cloudwatch.Ec2StateChangeEvent | cloudwatch.go:196-244 | one chat call whose single attachment has fallback "EC2 Instance State-change", the state's colour (`Cloudwatch.Ec2Color`) and the three fields title, instance-id and state; a detail that does not decode gives no call and the doubly prefixed error; a sink failure gets the EC2 prefix |
| Cloudwatch.LifecycleShape | cloudwatch.go:249-286 | lifecycle actions give one attachment, colour Info, fallback "Autoscaling - Lifecycle Action", and exactly the fields (CloudWatch Event, title, wide), (AutoScalingGroupName, "", narrow), (EC2InstanceId, "", narrow), (LifecycleTransition, "", narrow) |
| Cloudwatch.ActivityShape | cloudwatch.go:288-337 | any other autoscaling type: fallback "Autoscaling - " + detail-type, and exactly the fields (CloudWatch Event, title, wide), then (EC2InstanceId), (StatusCode), (Availability Zone) and (Cause), each "" and narrow; colour Warn iff the type is launch or terminate unsuccessful, else Info |
| Cloudwatch.AutoscalingValuesEmpty | cloudwatch.go:246-341 | every field value after the title row is empty, because the detail is never decoded |
| Cloudwatch.AutoscalingEvent | cloudwatch.go:154-159 | an autoscaling event makes the handler's single chat call; a sink failure is returned behind "failed to process Autoscaling Event: " |
| Cloudwatch.GenericEvent | cloudwatch.go:160-187 | any other source: one Info message with (CloudWatch Event, source) and (Event Detail JSON, detail verbatim); a sink error is returned as is |
| Cloudwatch.GenericMessage | cloudwatch.go:162-182 | no ensures; specified by lemma `Cloudwatch.GenericEvent` |
| Cloudwatch.NeverPages | cloudwatch.go:134-190 | at most one call, always a chat message; no infrastructure event pages |
| Cloudwatch.CloudwatchRun | cloudwatch.go:134-190 | no ensures; specified by lemmas `Cloudwatch.EventDecodeFailure`, `Cloudwatch.IgnoredEvents`, `Cloudwatch.Ec2StateChangeEvent`, `Cloudwatch.AutoscalingEvent`, `Cloudwatch.GenericEvent` and `Cloudwatch.NeverPages` |
| Dispatch.MalformedPayload | main.go:45-48 | an undecodable payload gives "unsupported payload: " + reason and no sink call |
| Dispatch.SnsPathOnly | main.go:50-56 | nonempty records whose first source is "aws:sns" get the SNS batch result, and the Cloudwatch decoding plays no part |
| Dispatch.ForeignRecordsDropped | main.go:57-59 | nonempty records from another source return success with no sink call |
| Dispatch.FirstRecordDecides | main.go:51 | only the first record's source is examined: replacing the later records changes nothing |
| Dispatch.CloudwatchPathOnly | main.go:60-65 | absent or empty records get the Cloudwatch result, and the SNS decoding plays no part |
| Dispatch.InvocationWellBehaved | main.go:42-69 | over a whole invocation, no sink call follows a failed one and every incident follows a delivered Error-coloured message |
| Dispatch.PagesOnlyFromSns | main.go:50-65 | an incident is only ever sent on the SNS path |
| Dispatch.ProcessMessage | main.go:42-69 | no ensures; specified by lemmas `Dispatch.MalformedPayload`, `Dispatch.SnsPathOnly`, `Dispatch.ForeignRecordsDropped`, `Dispatch.FirstRecordDecides`, `Dispatch.CloudwatchPathOnly`, `Dispatch.InvocationWellBehaved` and `Dispatch.PagesOnlyFromSns` |
| Dispatch.HasRecords | main.go:50 | no ensures; specified by lemmas `Dispatch.SnsPathOnly`, `Dispatch.ForeignRecordsDropped` and `Dispatch.CloudwatchPathOnly` |

## Left out

- JSON decoding and encoding, including the permissive comparison of the
  first record's `EventSource` with `"aws:sns"`. Decoded values and decode
  failures are inputs. The model does not require the three decodings of one
  payload to agree with each other.
- HTTP posting in `SlackNotifier.sendMessage` and
  `PagerdutyNotifier.triggerIncident`. This is network I/O, so each call is an
  effect whose outcome comes from a script. The request envelope the paging
  sender adds (service key, `event_type` "trigger", client name) is not
  modelled. Neither is the nil dereference of `res.Body` on a transport error.
- The wire-format round trip of chat messages. It is a property of the JSON
  library, not of this code.
- `HandleRequest` and `main`: the environment-variable lookup of the webhook
  and the service key, `lambda.Start`, and all `log.Print` calls. These are
  runtime plumbing.
- Fields that no logic reads: `account`, `region`, `time`, `resources`,
  `Statistic`, `Period`, and the `float32` `Threshold`. Most SNS envelope
  fields go too (signature, timestamps, URLs, message attributes).
- Sinks.Call: a call in the model is a single attempt, with no timeout and no
  retry, as in the code. What the remote service does with a delivered
  message is not modelled.
