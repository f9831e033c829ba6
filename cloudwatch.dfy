/** Classification of direct infrastructure (Cloudwatch) events: EC2 state
    changes, scheduled events, autoscaling events and everything else. None of
    them pages. */
module Cloudwatch {
  import opened Wrappers
  import opened Slack
  import opened Sinks
  import Lists

  // ---------------------------------------------------------------------------
  // Decoded inputs

  datatype Ec2StateChange = Ec2StateChange(instanceId: string, state: string)

  datatype LifecycleDetail = LifecycleDetail(
    lifecycleActionToken: string,
    autoScalingGroupName: string,
    lifecycleHookName: string,
    ec2InstanceId: string,
    lifecycleTransition: string,
    notificationMetadata: string)

  datatype ActivityPlacement = ActivityPlacement(availabilityZone: string, subnetId: string)

  datatype ActivityDetail = ActivityDetail(
    statusCode: string,
    autoScalingGroupName: string,
    activityId: string,
    details: ActivityPlacement,
    requestId: string,
    endTime: string,
    ec2InstanceId: string,
    startTime: string,
    cause: string)

  /** The common event header. `detail` is the raw detail sub-document as text;
      `ec2Detail` is what decoding it as an EC2 state change yields. */
  datatype CloudwatchEvent = CloudwatchEvent(
    id: string,
    detailType: string,
    source: string,
    detail: string,
    ec2Detail: Decoded<Ec2StateChange>)

  /** The autoscaling handlers declare their detail records but never decode
      into them, so what they read is Go's zero value: every string empty. */
  const ZeroLifecycle := LifecycleDetail("", "", "", "", "", "")
  const ZeroActivity := ActivityDetail("", "", "", ActivityPlacement("", ""), "", "", "", "", "")

  // ---------------------------------------------------------------------------
  // Constants

  const Ec2Source := "aws.ec2"
  const ScheduledSource := "aws.events"
  const AutoscalingSource := "aws.autoscaling"
  const Ec2StateChangeType := "EC2 Instance State-change Notification"

  const StoppingStates := ["shutting-down", "terminated", "stopping", "stopped"]
  const LifecycleTypes := ["EC2 Instance-launch Lifecycle Action", "EC2 Instance-terminate Lifecycle Action"]
  const UnsuccessfulTypes := ["EC2 Instance Launch Unsuccessful", "EC2 Instance Terminate Unsuccessful"]

  const EventPrefix := "unsupported Cloudwatch Event payload: "
  const Ec2Prefix := "failed to process EC2 Event: "
  const Ec2DetailPrefix := "unsupported EC2 Cloudwatch Event Detail: "
  const AutoscalingPrefix := "failed to process Autoscaling Event: "

  // ---------------------------------------------------------------------------
  // EC2 state changes

  function Ec2Color(state: string): (r: Color)
    ensures r == Warn || r == Info
  {
    if Lists.Contains(StoppingStates, state) then Warn else Info
  }

  function Ec2Message(d: Ec2StateChange): (r: SlackMessage)
  {
    var title := "EC2 Instance State-change";
    Single(title, Ec2Color(d.state), [
      SlackField("CloudWatch Event", title, false),
      SlackField("instance-id", d.instanceId, true),
      SlackField("state", d.state, true)])
  }

  /** processEC2StateChangeEvent: decode the detail, then one chat call. */
  function Ec2StateChangeRun(event: CloudwatchEvent, oracle: seq<Outcome>, at: nat): (r: Run)
  {
    match event.ec2Detail
    case DecodeError(why) => Run([], Err(Ec2DetailPrefix + why))
    case Parsed(d) => Call(Chat(Ec2Message(d)), oracle, at)
  }

  /** Warn exactly for the four stopping states, Info for every other state. */
  lemma Ec2ColorIff(state: string)
    ensures Ec2Color(state) == Warn <==>
              state == "shutting-down" || state == "terminated" || state == "stopping" || state == "stopped"
    ensures Ec2Color(state) != Warn ==> Ec2Color(state) == Info
  {
  }

  lemma Ec2ColorExamples()
    ensures Ec2Color("terminated") == Warn
    ensures Ec2Color("pending") == Info
  {
  }

  // ---------------------------------------------------------------------------
  // Autoscaling

  function LifecycleMessage(d: LifecycleDetail): (r: SlackMessage)
  {
    var title := "Autoscaling - Lifecycle Action";
    Single(title, Info, [
      SlackField("CloudWatch Event", title, false),
      SlackField("AutoScalingGroupName", d.autoScalingGroupName, true),
      SlackField("EC2InstanceId", d.ec2InstanceId, true),
      SlackField("LifecycleTransition", d.lifecycleTransition, true)])
  }

  function ActivityColor(detailType: string): (r: Color)
    ensures r == Warn || r == Info
  {
    if Lists.Contains(UnsuccessfulTypes, detailType) then Warn else Info
  }

  function ActivityMessage(detailType: string, d: ActivityDetail): (r: SlackMessage)
  {
    var title := "Autoscaling - " + detailType;
    Single(title, ActivityColor(detailType), [
      SlackField("CloudWatch Event", title, false),
      SlackField("EC2InstanceId", d.ec2InstanceId, true),
      SlackField("StatusCode", d.statusCode, true),
      SlackField("Availability Zone", d.details.availabilityZone, true),
      SlackField("Cause", d.cause, true)])
  }

  /** processAutoscalingEvent: lifecycle actions, or any other activity. */
  function AutoscalingRun(event: CloudwatchEvent, oracle: seq<Outcome>, at: nat): (r: Run)
  {
    if Lists.Contains(LifecycleTypes, event.detailType) then
      Call(Chat(LifecycleMessage(ZeroLifecycle)), oracle, at)
    else
      Call(Chat(ActivityMessage(event.detailType, ZeroActivity)), oracle, at)
  }

  /** Every value read from an autoscaling detail is empty: the only nonempty
      field value is the title row's. */
  lemma AutoscalingValuesEmpty(event: CloudwatchEvent, oracle: seq<Outcome>, at: nat)
    ensures var m := AutoscalingRun(event, oracle, at).effects[0].message;
            |m.attachments| == 1 &&
            forall i :: 1 <= i < |m.attachments[0].fields| ==> m.attachments[0].fields[i].value == ""
  {
  }

  /** A lifecycle action: colour Info, its fixed title and four fields. */
  lemma LifecycleShape(event: CloudwatchEvent, oracle: seq<Outcome>, at: nat)
    requires event.detailType in LifecycleTypes
    ensures var m := AutoscalingRun(event, oracle, at).effects[0].message;
            |m.attachments| == 1 &&
            m.attachments[0].color == Info &&
            m.attachments[0].fallback == "Autoscaling - Lifecycle Action" &&
            m.attachments[0].fields == [
              SlackField("CloudWatch Event", "Autoscaling - Lifecycle Action", false),
              SlackField("AutoScalingGroupName", "", true),
              SlackField("EC2InstanceId", "", true),
              SlackField("LifecycleTransition", "", true)]
  {
  }

  /** Any other autoscaling activity: titled by its detail-type, five fields,
      and coloured Warn exactly for the two unsuccessful detail-types. */
  lemma ActivityShape(event: CloudwatchEvent, oracle: seq<Outcome>, at: nat)
    requires event.detailType !in LifecycleTypes
    ensures var m := AutoscalingRun(event, oracle, at).effects[0].message;
            var title := "Autoscaling - " + event.detailType;
            |m.attachments| == 1 &&
            m.attachments[0].fallback == title &&
            m.attachments[0].fields == [
              SlackField("CloudWatch Event", title, false),
              SlackField("EC2InstanceId", "", true),
              SlackField("StatusCode", "", true),
              SlackField("Availability Zone", "", true),
              SlackField("Cause", "", true)] &&
            (m.attachments[0].color == Warn <==>
               event.detailType == "EC2 Instance Launch Unsuccessful" ||
               event.detailType == "EC2 Instance Terminate Unsuccessful") &&
            (m.attachments[0].color != Warn ==> m.attachments[0].color == Info)
  {
  }

  // ---------------------------------------------------------------------------
  // Everything else, and the dispatch

  function GenericMessage(event: CloudwatchEvent): (r: SlackMessage)
  {
    var title := event.source;
    Single(title, Info, [
      SlackField("CloudWatch Event", title, false),
      SlackField("Event Detail JSON", event.detail, false)])
  }

  /** processCloudwatchEvent, making its first sink call as call number `at`. */
  function CloudwatchRun(decoded: Decoded<CloudwatchEvent>, oracle: seq<Outcome>, at: nat): (r: Run)
  {
    match decoded
    case DecodeError(why) => Run([], Err(EventPrefix + why))
    case Parsed(event) =>
      if event.source == Ec2Source then
        if event.detailType == Ec2StateChangeType then WithPrefix(Ec2Prefix, Ec2StateChangeRun(event, oracle, at))
        else Run([], Ok)
      else if event.source == ScheduledSource then Run([], Ok)
      else if event.source == AutoscalingSource then WithPrefix(AutoscalingPrefix, AutoscalingRun(event, oracle, at))
      else Call(Chat(GenericMessage(event)), oracle, at)
  }

  /** An event that does not decode makes no sink call. */
  lemma EventDecodeFailure(decoded: Decoded<CloudwatchEvent>, oracle: seq<Outcome>, at: nat)
    requires decoded.DecodeError?
    ensures CloudwatchRun(decoded, oracle, at) == Run([], Err(EventPrefix + decoded.reason))
  {
  }

  /** Scheduled events, and EC2 events other than state changes, are ignored. */
  lemma IgnoredEvents(event: CloudwatchEvent, oracle: seq<Outcome>, at: nat)
    requires event.source == ScheduledSource || (event.source == Ec2Source && event.detailType != Ec2StateChangeType)
    ensures CloudwatchRun(Parsed(event), oracle, at) == Run([], Ok)
  {
  }

  /** An EC2 state change: one chat call with the three fields, or, when the
      detail does not decode, no call and the doubly prefixed error. */
  lemma Ec2StateChangeEvent(event: CloudwatchEvent, oracle: seq<Outcome>, at: nat)
    requires event.source == Ec2Source && event.detailType == Ec2StateChangeType
    ensures var r := CloudwatchRun(Parsed(event), oracle, at);
            match event.ec2Detail
            case DecodeError(why) => r == Run([], Err(Ec2Prefix + Ec2DetailPrefix + why))
            case Parsed(d) =>
              r.effects == [Chat(Ec2Message(d))] &&
              Ec2Message(d).attachments == [SlackAttachment("EC2 Instance State-change", Ec2Color(d.state), [
                SlackField("CloudWatch Event", "EC2 Instance State-change", false),
                SlackField("instance-id", d.instanceId, true),
                SlackField("state", d.state, true)])] &&
              (r.status.Err? <==> OutcomeAt(oracle, at).Failed?) &&
              (r.status.Err? ==> r.status.msg == Ec2Prefix + OutcomeAt(oracle, at).reason)
  {
  }

  /** An autoscaling event: the handler's one chat call, and a sink failure
      behind the autoscaling prefix. */
  lemma AutoscalingEvent(event: CloudwatchEvent, oracle: seq<Outcome>, at: nat)
    requires event.source == AutoscalingSource
    ensures var r := CloudwatchRun(Parsed(event), oracle, at);
            r.effects == AutoscalingRun(event, oracle, at).effects && |r.effects| == 1 &&
            (r.status.Err? <==> OutcomeAt(oracle, at).Failed?) &&
            (r.status.Err? ==> r.status.msg == AutoscalingPrefix + OutcomeAt(oracle, at).reason)
  {
  }

  /** Any other source: one Info message naming the source and carrying the
      detail text verbatim; a sink failure is returned without a prefix. */
  lemma GenericEvent(event: CloudwatchEvent, oracle: seq<Outcome>, at: nat)
    requires event.source !in [Ec2Source, ScheduledSource, AutoscalingSource]
    ensures var r := CloudwatchRun(Parsed(event), oracle, at);
            r.effects == [Chat(Single(event.source, Info, [
              SlackField("CloudWatch Event", event.source, false),
              SlackField("Event Detail JSON", event.detail, false)]))] &&
            (r.status.Err? <==> OutcomeAt(oracle, at).Failed?) &&
            (r.status.Err? ==> r.status.msg == OutcomeAt(oracle, at).reason)
  {
  }

  /** No infrastructure event pages: at most one call, always a chat message,
      and the sink-level properties hold. */
  lemma NeverPages(decoded: Decoded<CloudwatchEvent>, oracle: seq<Outcome>, at: nat)
    ensures |CloudwatchRun(decoded, oracle, at).effects| <= 1
    ensures forall j :: 0 <= j < |CloudwatchRun(decoded, oracle, at).effects| ==> CloudwatchRun(decoded, oracle, at).effects[j].Chat?
    ensures WellBehaved(CloudwatchRun(decoded, oracle, at), oracle, at)
  {
  }
}
