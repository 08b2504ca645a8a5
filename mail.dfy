/**
 * The pure part of `send_email` in app.py (timestamp, body content and
 * subject of the message), and the SMTP server as a log of delivery attempts.
 * MIME assembly, the logo attachment and the HTML template are not modelled:
 * an `Email` carries the values the template is rendered with.
 */
module Mail {
  import opened Wrappers
  import opened PyStrings
  import opened Webex

  const SUBJECT_SUFFIX := " - Webex Space Message"

  /** One delivery attempt: envelope, subject, and the values given to the template. */
  datatype Email = Email(
    sender: string,
    recipient: string,
    subject: string,
    roomName: string,
    author: string,
    timestamp: string,
    content: string)

  /** `room_name + ' - Webex Space Message'`. */
  function Subject(roomName: string): (s: string)
    ensures |s| == |roomName| + |SUBJECT_SUFFIX|
    ensures s[..|roomName|] == roomName && s[|roomName|..] == SUBJECT_SUFFIX
  {
    roomName + SUBJECT_SUFFIX
  }

  /** Distinct rooms give distinct subjects: the room name is recoverable from the subject. */
  lemma SubjectNamesRoom(a: string, b: string)
    requires Subject(a) == Subject(b)
    ensures a == b
  {
    assert |a| == |b|;
    assert a == Subject(a)[..|a|];
  }

  /**
   * `created.split('T')`, then the first piece, `' - '`, and the second piece
   * without its last character. A timestamp without `T` has no second piece
   * and the indexing raises.
   */
  function FormatTimestamp(created: string): (r: Option<string>)
    ensures r.Some? <==> 'T' in created
  {
    SplitPieces(created, 'T');
    var parts := Split(created, 'T');
    if |parts| < 2 then None else Some(parts[0] + " - " + DropLast(parts[1]))
  }

  /** An ISO 8601 stamp `date T time` becomes `date - time` with the trailing zone letter dropped. */
  lemma {:induction false} TimestampOfIso(date: string, time: string)
    requires 'T' !in date && 'T' !in time
    ensures FormatTimestamp(date + "T" + time) == Some(date + " - " + DropLast(time))
  {
    assert [date, time][1..] == [time];
    assert Join([date, time], 'T') == date + "T" + time;
    SplitJoin([date, time], 'T');
  }

  /** The body shown in the email: html if present, otherwise markdown, otherwise text. */
  function Content(m: Message): (r: Option<string>)
    ensures r.Some? <==> m.html.Some? || m.markdown.Some? || m.text.Some?
    ensures m.html.Some? ==> r == m.html
    ensures m.html.None? && m.markdown.Some? ==> r == m.markdown
    ensures m.html.None? && m.markdown.None? ==> r == m.text
  {
    if m.html.Some? then m.html
    else if m.markdown.Some? then m.markdown
    else m.text
  }

  /** A message send_email can format without raising. */
  predicate Composable(m: Message)
  {
    'T' in m.created && Content(m).Some?
  }

  /** The email send_email builds for one recipient, or None where it raises before sending. */
  function Compose(roomName: string, recipient: string, sender: string, m: Message): (e: Option<Email>)
    ensures e.Some? <==> Composable(m)
    ensures e.Some? ==>
      e.value.recipient == recipient && e.value.sender == sender &&
      e.value.subject == Subject(roomName) && e.value.roomName == roomName &&
      e.value.author == m.personEmail &&
      Some(e.value.timestamp) == FormatTimestamp(m.created) &&
      Some(e.value.content) == Content(m)
  {
    match (FormatTimestamp(m.created), Content(m))
    case (Some(stamp), Some(body)) =>
      Some(Email(sender, recipient, Subject(roomName), roomName, m.personEmail, stamp, body))
    case _ => None
  }

  /** The emails for a list of recipients, one each, in list order. */
  function Fanout(roomName: string, recipients: seq<string>, sender: string, m: Message): (es: seq<Email>)
    requires Composable(m)
    ensures |es| == |recipients|
    ensures forall i :: 0 <= i < |es| ==> Compose(roomName, recipients[i], sender, m) == Some(es[i])
  {
    if recipients == [] then []
    else
      Fanout(roomName, recipients[..|recipients| - 1], sender, m)
        + [Compose(roomName, recipients[|recipients| - 1], sender, m).value]
  }

  /** Every email of a fan-out carries the room's subject and goes to a listed recipient. */
  lemma FanoutAddresses(roomName: string, recipients: seq<string>, sender: string, m: Message)
    requires Composable(m)
    ensures forall e :: e in Fanout(roomName, recipients, sender, m) ==>
      e.subject == Subject(roomName) && e.roomName == roomName && e.recipient in recipients
  {
    var es := Fanout(roomName, recipients, sender, m);
    forall e | e in es
      ensures e.subject == Subject(roomName) && e.roomName == roomName && e.recipient in recipients
    {
      var i :| 0 <= i < |es| && es[i] == e;
      assert Compose(roomName, recipients[i], sender, m) == Some(e);
    }
  }

  /** The SMTP server: every delivery attempt in order. A failed attempt is caught and logged by the sender. */
  class Mailer {
    var outbox: seq<Email>

    constructor ()
      ensures outbox == []
    {
      outbox := [];
    }

    method Deliver(e: Email)
      modifies this
      ensures outbox == old(outbox) + [e]
    {
      outbox := outbox + [e];
    }
  }
}
