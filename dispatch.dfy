/** The top-level dispatcher: decides from the permissively decoded envelope
    whether a payload is a batch of SNS records, a foreign record batch, or a
    direct Cloudwatch event. */
module Dispatch {
  import opened Wrappers
  import opened Sinks
  import Sns
  import Cloudwatch

  /** One record of the envelope, seen only through its `EventSource` entry:
      the string it holds, or None when the key is absent or not a string. */
  datatype GenericRecord = GenericRecord(eventSource: Option<string>)

  /** The permissive envelope; `records` is None when the key is absent. */
  datatype GenericEvent = GenericEvent(
    records: Option<seq<GenericRecord>>,
    id: string,
    detailType: string,
    source: string)

  /** One raw payload, seen through the three decodings the router applies to it. */
  datatype Payload = Payload(
    envelope: Decoded<GenericEvent>,
    snsRecords: Decoded<seq<Sns.SnsRecord>>,
    event: Decoded<Cloudwatch.CloudwatchEvent>)

  const SnsEventSource := "aws:sns"
  const PayloadPrefix := "unsupported payload: "

  /** The record list is present and nonempty. */
  predicate HasRecords(g: GenericEvent)
  {
    g.records.Some? && |g.records.value| != 0
  }

  /** processMessage: the whole invocation, from sink call number 0. */
  function ProcessMessage(p: Payload, oracle: seq<Outcome>): (r: Run)
  {
    match p.envelope
    case DecodeError(why) => Run([], Err(PayloadPrefix + why))
    case Parsed(g) =>
      if HasRecords(g) then
        if g.records.value[0].eventSource == Some(SnsEventSource) then
          Sns.ProcessRecordsRun(p.snsRecords, oracle, 0)
        else
          Run([], Ok)
      else
        Cloudwatch.CloudwatchRun(p.event, oracle, 0)
  }

  /** A payload that does not decode makes no sink call. */
  lemma MalformedPayload(p: Payload, oracle: seq<Outcome>)
    requires p.envelope.DecodeError?
    ensures ProcessMessage(p, oracle) == Run([], Err(PayloadPrefix + p.envelope.reason))
  {
  }

  /** SNS records go to the SNS path alone: the result is the batch's, and the
      Cloudwatch decoding of the payload plays no part. */
  lemma SnsPathOnly(p: Payload, oracle: seq<Outcome>, otherEvent: Decoded<Cloudwatch.CloudwatchEvent>)
    requires p.envelope.Parsed? && HasRecords(p.envelope.value)
    requires p.envelope.value.records.value[0].eventSource == Some(SnsEventSource)
    ensures ProcessMessage(p, oracle) == Sns.ProcessRecordsRun(p.snsRecords, oracle, 0)
    ensures ProcessMessage(p.(event := otherEvent), oracle) == ProcessMessage(p, oracle)
  {
  }

  /** Records from any other source are dropped without error or sink call. */
  lemma ForeignRecordsDropped(p: Payload, oracle: seq<Outcome>)
    requires p.envelope.Parsed? && HasRecords(p.envelope.value)
    requires p.envelope.value.records.value[0].eventSource != Some(SnsEventSource)
    ensures ProcessMessage(p, oracle) == Run([], Ok)
  {
  }

  /** Only the first record's source is consulted: replacing every later
      record leaves the result unchanged. */
  lemma FirstRecordDecides(p: Payload, oracle: seq<Outcome>, later: seq<GenericRecord>)
    requires p.envelope.Parsed? && HasRecords(p.envelope.value)
    ensures var g := p.envelope.value;
            var g' := g.(records := Some([g.records.value[0]] + later));
            ProcessMessage(p.(envelope := Parsed(g')), oracle) == ProcessMessage(p, oracle)
  {
  }

  /** An absent or empty record list goes to the Cloudwatch path alone: the
      result is the event's, and the strict SNS decoding plays no part. */
  lemma CloudwatchPathOnly(p: Payload, oracle: seq<Outcome>, otherRecords: Decoded<seq<Sns.SnsRecord>>)
    requires p.envelope.Parsed? && !HasRecords(p.envelope.value)
    ensures ProcessMessage(p, oracle) == Cloudwatch.CloudwatchRun(p.event, oracle, 0)
    ensures ProcessMessage(p.(snsRecords := otherRecords), oracle) == ProcessMessage(p, oracle)
  {
  }

  /** Over a whole invocation: no sink call follows a failed one, and every
      incident comes straight after a delivered Error-coloured chat message. */
  lemma InvocationWellBehaved(p: Payload, oracle: seq<Outcome>)
    ensures WellBehaved(ProcessMessage(p, oracle), oracle, 0)
  {
    if p.envelope.Parsed? {
      var g := p.envelope.value;
      if HasRecords(g) {
        if g.records.value[0].eventSource == Some(SnsEventSource) && p.snsRecords.Parsed? {
          Sns.RecordsWellBehaved(p.snsRecords.value, oracle, 0);
        }
      } else {
        Cloudwatch.NeverPages(p.event, oracle, 0);
      }
    }
  }

  /** Paging happens only on the SNS path. */
  lemma PagesOnlyFromSns(p: Payload, oracle: seq<Outcome>, j: nat)
    requires j < |ProcessMessage(p, oracle).effects| && ProcessMessage(p, oracle).effects[j].Page?
    ensures p.envelope.Parsed? && HasRecords(p.envelope.value)
    ensures p.envelope.value.records.value[0].eventSource == Some(SnsEventSource)
  {
    if p.envelope.Parsed? && !HasRecords(p.envelope.value) {
      Cloudwatch.NeverPages(p.event, oracle, 0);
    }
  }
}
