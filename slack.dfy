/** The chat-message data types and the four attachment colours. */
module Slack {

  /** The attachment colours; `Hex` gives the literal the sender writes on the wire. */
  datatype Color = Info | Success | Warn | Error

  function Hex(c: Color): (h: string)
    ensures |h| == 7 && h[0] == '#'
    ensures forall i :: 1 <= i < 7 ==> h[i] in "0123456789ABCDEF"
  {
    match c
    case Info => "#00BFFF"
    case Success => "#00FF00"
    case Warn => "#FFD700"
    case Error => "#DC143C"
  }

  /** Distinct colours are written as distinct literals. */
  lemma HexInjective(c: Color, d: Color)
    ensures Hex(c) == Hex(d) ==> c == d
  {
  }

  /** One (title, value, short) row of an attachment. */
  datatype SlackField = SlackField(title: string, value: string, short: bool)

  datatype SlackAttachment = SlackAttachment(fallback: string, color: Color, fields: seq<SlackField>)

  datatype SlackMessage = SlackMessage(attachments: seq<SlackAttachment>)

  /** Every message the router builds carries exactly one attachment. */
  function Single(fallback: string, color: Color, fields: seq<SlackField>): (r: SlackMessage)
  {
    SlackMessage([SlackAttachment(fallback, color, fields)])
  }
}
