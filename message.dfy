/**
 * The metadata record of one message, as `extract_message_metadata` builds it
 * and as the filter engine reads it. Dates are instants on one integer
 * timeline of seconds; a date the parser rejected is `None`.
 */
module Message {
  import opened Wrappers

  datatype EmailMetadata = EmailMetadata(
    id: Option<string>,
    threadId: Option<string>,
    labelIds: seq<string>,
    sizeEstimate: int,
    subject: string,
    from: string,
    to: string,
    dateStr: string,
    messageIdHeader: string,
    date: Option<int>,
    hasAttachments: bool,
    attachmentCount: nat)
}
