/** The records of src/types/email.ts. Optional and nullable properties become Option. */
module EmailTypes {
  import opened Wrappers

  datatype EmailAttachment = EmailAttachment(filename: string, contentType: string, size: nat)

  datatype EmailMessage = EmailMessage(
    uid: string,
    subject: string,
    fromAddress: string,
    toAddresses: seq<string>,
    date: Option<string>,
    bodyPlain: Option<string>,
    bodyHtml: Option<string>,
    hasAttachments: bool,
    attachments: seq<EmailAttachment>,
    isRead: bool)

  /** Every property of the request is optional; the service fills in defaults. */
  datatype EmailFetchRequest = EmailFetchRequest(
    folder: Option<string>,
    limit: Option<int>,
    searchCriteria: Option<string>,
    includeBody: Option<bool>)

  datatype EmailFetchResponse = EmailFetchResponse(
    success: bool,
    message: string,
    totalCount: int,
    emails: seq<EmailMessage>)
}
