/**
 * The text form in which the email cache stores a list of messages. The
 * source writes `JSON.stringify(emails)` and reads it back with `JSON.parse`;
 * this model stands in an ideal, self-delimiting encoding of the same
 * records (every string is prefixed by its length, every list by its count)
 * and proves the one property the cache relies on: decoding what was encoded
 * gives the list back.
 *
 * Encoders are written in continuation style, `Put…(x, tail)`, so that a
 * decoder `Get…` applied to `Put…(x, tail)` returns `x` and exactly `tail`.
 */
module EmailCodec {
  import opened Wrappers
  import opened JsText
  import opened EmailTypes

  // ---------------------------------------------------------------------------
  // Primitive fields
  // ---------------------------------------------------------------------------

  /** A natural number: its decimal digits, then `;`. */
  function PutNat(n: nat, tail: string): string {
    NatToString(n) + ([';'] + tail)
  }

  function GetNat(s: string): Option<(nat, string)> {
    var d := LeadingDigits(s, false);
    if d != [] && |d| < |s| && s[|d|] == ';' then Some((DigitsValue(d, false), s[|d| + 1..]))
    else None
  }

  lemma GetPutNat(n: nat, tail: string)
    ensures GetNat(PutNat(n, tail)) == Some((n, tail))
  {
    var d := NatToString(n);
    LeadingDigitsStop(d, ';', tail, false);
    assert PutNat(n, tail)[|d| + 1..] == tail;
  }

  /** A string: its length, then its characters. */
  function PutStr(s: string, tail: string): string {
    PutNat(|s|, s + tail)
  }

  function GetStr(s: string): Option<(string, string)> {
    match GetNat(s)
    case None => None
    case Some((n, rest)) => if n <= |rest| then Some((rest[..n], rest[n..])) else None
  }

  lemma GetPutStr(s: string, tail: string)
    ensures GetStr(PutStr(s, tail)) == Some((s, tail))
  {
    GetPutNat(|s|, s + tail);
    assert (s + tail)[..|s|] == s && (s + tail)[|s|..] == tail;
  }

  /** A nullable string: `n` for null, `s` and the string otherwise. */
  function PutOpt(o: Option<string>, tail: string): string {
    match o
    case None => ['n'] + tail
    case Some(s) => ['s'] + PutStr(s, tail)
  }

  function GetOpt(s: string): Option<(Option<string>, string)> {
    if s == [] then None
    else if s[0] == 'n' then Some((None, s[1..]))
    else if s[0] == 's' then
      match GetStr(s[1..])
      case None => None
      case Some((v, rest)) => Some((Some(v), rest))
    else None
  }

  lemma GetPutOpt(o: Option<string>, tail: string)
    ensures GetOpt(PutOpt(o, tail)) == Some((o, tail))
  {
    match o
    case None =>
    case Some(s) =>
      assert PutOpt(o, tail)[1..] == PutStr(s, tail);
      GetPutStr(s, tail);
  }

  /** A boolean: `t` or `f`. */
  function PutBool(b: bool, tail: string): string {
    [if b then 't' else 'f'] + tail
  }

  function GetBool(s: string): Option<(bool, string)> {
    if s != [] && (s[0] == 't' || s[0] == 'f') then Some((s[0] == 't', s[1..])) else None
  }

  lemma GetPutBool(b: bool, tail: string)
    ensures GetBool(PutBool(b, tail)) == Some((b, tail))
  {
    assert PutBool(b, tail)[1..] == tail;
  }

  // ---------------------------------------------------------------------------
  // Lists
  // ---------------------------------------------------------------------------

  /** The items of a list, one after the other, then `tail`. */
  function PutItems<T>(xs: seq<T>, put: (T, string) -> string, tail: string): string {
    if xs == [] then tail else put(xs[0], PutItems(xs[1..], put, tail))
  }

  /** A list: its item count, then its items. */
  function PutSeq<T>(xs: seq<T>, put: (T, string) -> string, tail: string): string {
    PutNat(|xs|, PutItems(xs, put, tail))
  }

  function GetItems<T>(n: nat, s: string, get: string -> Option<(T, string)>): Option<(seq<T>, string)> {
    if n == 0 then Some(([], s))
    else
      match get(s)
      case None => None
      case Some((x, rest)) =>
        match GetItems(n - 1, rest, get)
        case None => None
        case Some((xs, rest')) => Some(([x] + xs, rest'))
  }

  function GetSeq<T>(s: string, get: string -> Option<(T, string)>): Option<(seq<T>, string)> {
    match GetNat(s)
    case None => None
    case Some((n, rest)) => GetItems(n, rest, get)
  }

  /** A list codec is a round trip whenever its item codec is one. */
  lemma {:induction false} GetPutItems<T>(xs: seq<T>, put: (T, string) -> string,
                                          get: string -> Option<(T, string)>, tail: string)
    requires forall x, t :: get(put(x, t)) == Some((x, t))
    ensures GetItems(|xs|, PutItems(xs, put, tail), get) == Some((xs, tail))
  {
    if xs != [] {
      GetPutItems(xs[1..], put, get, tail);
      assert [xs[0]] + xs[1..] == xs;
    }
  }

  lemma GetPutSeq<T>(xs: seq<T>, put: (T, string) -> string,
                     get: string -> Option<(T, string)>, tail: string)
    requires forall x, t :: get(put(x, t)) == Some((x, t))
    ensures GetSeq(PutSeq(xs, put, tail), get) == Some((xs, tail))
  {
    GetPutNat(|xs|, PutItems(xs, put, tail));
    GetPutItems(xs, put, get, tail);
  }

  lemma StrCodecRoundTrips()
    ensures forall x, t :: GetStr(PutStr(x, t)) == Some((x, t))
  {
    forall x, t ensures GetStr(PutStr(x, t)) == Some((x, t)) {
      GetPutStr(x, t);
    }
  }

  // ---------------------------------------------------------------------------
  // Records
  // ---------------------------------------------------------------------------

  function PutAttachment(a: EmailAttachment, tail: string): string {
    PutStr(a.filename, PutStr(a.contentType, PutNat(a.size, tail)))
  }

  function GetAttachment(s: string): Option<(EmailAttachment, string)> {
    var filename :- GetStr(s);
    var contentType :- GetStr(filename.1);
    var size :- GetNat(contentType.1);
    Some((EmailAttachment(filename.0, contentType.0, size.0), size.1))
  }

  lemma GetPutAttachment(a: EmailAttachment, tail: string)
    ensures GetAttachment(PutAttachment(a, tail)) == Some((a, tail))
  {
    GetPutStr(a.filename, PutStr(a.contentType, PutNat(a.size, tail)));
    GetPutStr(a.contentType, PutNat(a.size, tail));
    GetPutNat(a.size, tail);
  }

  lemma AttachmentCodecRoundTrips()
    ensures forall x, t :: GetAttachment(PutAttachment(x, t)) == Some((x, t))
  {
    forall x, t ensures GetAttachment(PutAttachment(x, t)) == Some((x, t)) {
      GetPutAttachment(x, t);
    }
  }

  /** The flags and lists that close a message, after its three leading strings. */
  function PutMessageTail(m: EmailMessage, tail: string): string {
    PutSeq(m.toAddresses, PutStr,
      PutOpt(m.date,
        PutOpt(m.bodyPlain,
          PutOpt(m.bodyHtml,
            PutBool(m.hasAttachments,
              PutSeq(m.attachments, PutAttachment,
                PutBool(m.isRead, tail)))))))
  }

  function PutMessage(m: EmailMessage, tail: string): string {
    PutStr(m.uid, PutStr(m.subject, PutStr(m.fromAddress, PutMessageTail(m, tail))))
  }

  function GetMessage(s: string): Option<(EmailMessage, string)> {
    var uid :- GetStr(s);
    var subject :- GetStr(uid.1);
    var fromAddress :- GetStr(subject.1);
    var toAddresses :- GetSeq(fromAddress.1, GetStr);
    var date :- GetOpt(toAddresses.1);
    var bodyPlain :- GetOpt(date.1);
    var bodyHtml :- GetOpt(bodyPlain.1);
    var hasAttachments :- GetBool(bodyHtml.1);
    var attachments :- GetSeq(hasAttachments.1, GetAttachment);
    var isRead :- GetBool(attachments.1);
    Some((EmailMessage(uid.0, subject.0, fromAddress.0, toAddresses.0, date.0, bodyPlain.0,
                       bodyHtml.0, hasAttachments.0, attachments.0, isRead.0),
          isRead.1))
  }

  lemma GetPutMessage(m: EmailMessage, tail: string)
    ensures GetMessage(PutMessage(m, tail)) == Some((m, tail))
  {
    var t10 := PutBool(m.isRead, tail);
    var t9 := PutSeq(m.attachments, PutAttachment, t10);
    var t8 := PutBool(m.hasAttachments, t9);
    var t7 := PutOpt(m.bodyHtml, t8);
    var t6 := PutOpt(m.bodyPlain, t7);
    var t5 := PutOpt(m.date, t6);
    var t4 := PutMessageTail(m, tail);
    assert t4 == PutSeq(m.toAddresses, PutStr, t5);
    var t3 := PutStr(m.fromAddress, t4);
    var t2 := PutStr(m.subject, t3);
    GetPutStr(m.uid, t2);
    GetPutStr(m.subject, t3);
    GetPutStr(m.fromAddress, t4);
    StrCodecRoundTrips();
    GetPutSeq(m.toAddresses, PutStr, GetStr, t5);
    GetPutOpt(m.date, t6);
    GetPutOpt(m.bodyPlain, t7);
    GetPutOpt(m.bodyHtml, t8);
    GetPutBool(m.hasAttachments, t9);
    AttachmentCodecRoundTrips();
    GetPutSeq(m.attachments, PutAttachment, GetAttachment, t10);
    GetPutBool(m.isRead, tail);
  }

  // ---------------------------------------------------------------------------
  // The stored text
  // ---------------------------------------------------------------------------

  /** The text stored for a list of messages (the role of `JSON.stringify`). */
  function Encode(emails: seq<EmailMessage>): (text: string)
    ensures text != ""
  {
    PutSeq(emails, PutMessage, "")
  }

  /**
   * The list a stored text denotes (the role of `JSON.parse`); `None` when
   * the text is not the encoding of a list, including trailing characters.
   */
  function Decode(text: string): Option<seq<EmailMessage>> {
    match GetSeq(text, GetMessage)
    case Some((emails, rest)) => if rest == "" then Some(emails) else None
    case None => None
  }

  /** Decoding what was encoded gives back the same list, in the same order. */
  lemma DecodeEncode(emails: seq<EmailMessage>)
    ensures Decode(Encode(emails)) == Some(emails)
  {
    forall x, t ensures GetMessage(PutMessage(x, t)) == Some((x, t)) {
      GetPutMessage(x, t);
    }
    GetPutSeq(emails, PutMessage, GetMessage, "");
  }

  /** Two lists with the same encoding are the same list. */
  lemma EncodeInjective(a: seq<EmailMessage>, b: seq<EmailMessage>)
    requires Encode(a) == Encode(b)
    ensures a == b
  {
    DecodeEncode(a);
    DecodeEncode(b);
  }

  /** Empty stored text is not a list. */
  lemma DecodeEmpty()
    ensures Decode("") == None
  {
  }
}
