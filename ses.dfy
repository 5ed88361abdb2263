/** The mail service: send_raw_email records the message it is given. */
module Ses {
  import opened Wrappers
  import opened Invoicer

  /** One send_raw_email request: the message, the Source address, the
      Destinations and the SourceArn (None when not given). */
  datatype SentEmail = SentEmail(
    raw: Email,
    source: string,
    destinations: seq<string>,
    sourceArn: Option<string>)

  class SesClient {
    var sent: seq<SentEmail>

    constructor()
      ensures sent == []
    {
      sent := [];
    }

    method SendRawEmail(raw: Email, source: string, destinations: seq<string>, sourceArn: Option<string>)
      modifies this
      ensures sent == old(sent) + [SentEmail(raw, source, destinations, sourceArn)]
    {
      sent := sent + [SentEmail(raw, source, destinations, sourceArn)];
    }
  }

  /** send_email: hands the serialised message and the envelope to the
      mail service. */
  method SendEmail(ses: SesClient, msg: MimeMultipart, source: string, destinations: seq<string>,
                   verifiedSenderArn: Option<string>)
    modifies ses
    ensures ses.sent == old(ses.sent) + [SentEmail(msg.Message(), source, destinations, verifiedSenderArn)]
  {
    ses.SendRawEmail(msg.Message(), source, destinations, verifiedSenderArn);
  }
}
