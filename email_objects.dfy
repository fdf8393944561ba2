/**
 * E-mail values (email_handling/email_objects.py): a message and a thread
 * of messages, and the text the assistant shows the model for each.
 */
module EmailObjects {
  import opened Wrappers
  import opened Strings

  datatype EmailMessage = EmailMessage(
    subject: string, sender: string, recipients: seq<string>, body: string,
    timestamp: string, labels: seq<string>, messageId: string)

  /** `EmailMessage.__init__`: labels default to the empty list. */
  function NewEmailMessage(subject: string, sender: string, recipients: seq<string>, body: string,
                           timestamp: string, labels: Option<seq<string>>, messageId: string): (m: EmailMessage)
    ensures m.labels == (if labels.Some? then labels.value else [])
    ensures m.subject == subject && m.sender == sender && m.recipients == recipients && m.body == body
    ensures m.timestamp == timestamp && m.messageId == messageId
  {
    EmailMessage(subject, sender, recipients, body, timestamp, if labels.None? then [] else labels.value, messageId)
  }

  /** `recipients_str` */
  function RecipientsStr(m: EmailMessage): (r: string)
    ensures m.recipients == [] ==> r == ""
    ensures |m.recipients| == 1 ==> r == m.recipients[0]
  {
    Join(", ", m.recipients)
  }

  /** The four header lines of `as_formatted_string`. */
  function HeaderLines(m: EmailMessage): seq<string> {
    ["From: " + m.sender, "To: " + RecipientsStr(m), "Subject: " + m.subject, "Date: " + m.timestamp]
  }

  /** `EmailMessage.as_formatted_string` */
  function FormatMessage(m: EmailMessage): string {
    "From: " + m.sender + "\n" + "To: " + RecipientsStr(m) + "\n" + "Subject: " + m.subject + "\n"
      + "Date: " + m.timestamp + "\n\n" + m.body
  }

  /** When the header fields hold no line break, the formatted message is,
      line by line, the four headers, one blank line, and the lines of the
      body. */
  lemma {:induction false} FormatMessageLines(m: EmailMessage)
    requires forall i :: 0 <= i < 4 ==> '\n' !in HeaderLines(m)[i]
    ensures Split(FormatMessage(m), '\n') == HeaderLines(m) + [""] + Split(m.body, '\n')
  {
    var h := HeaderLines(m);
    var nl := ['\n'];
    var t4 := [] + nl + m.body;
    var t3 := h[3] + nl + t4;
    var t2 := h[2] + nl + t3;
    var t1 := h[1] + nl + t2;
    MessageLayout(m.sender, RecipientsStr(m), m.subject, m.timestamp, m.body);
    assert FormatMessage(m) == h[0] + nl + t1;
    SplitAfterPiece([], '\n', m.body);
    SplitAfterPiece(h[3], '\n', t4);
    SplitAfterPiece(h[2], '\n', t3);
    SplitAfterPiece(h[1], '\n', t2);
    SplitAfterPiece(h[0], '\n', t1);
  }

  /** The formatted message regrouped as one header line and a line break
      at a time. */
  lemma MessageLayout(sender: string, recipients: string, subject: string, timestamp: string, body: string)
    ensures "From: " + sender + "\n" + "To: " + recipients + "\n" + "Subject: " + subject + "\n"
              + "Date: " + timestamp + "\n\n" + body
            == ("From: " + sender) + ['\n'] + (("To: " + recipients) + ['\n'] + (("Subject: " + subject) + ['\n']
                 + (("Date: " + timestamp) + ['\n'] + ([] + ['\n'] + body))))
  {
  }

  datatype EmailThread = EmailThread(threadId: string, timestamp: string, messages: seq<EmailMessage>, summary: string)

  /** `EmailThread.__init__`: a new thread has no summary yet. */
  function NewEmailThread(threadId: string, timestamp: string, messages: seq<EmailMessage>): (t: EmailThread)
    ensures t.summary == "" && t.threadId == threadId && t.timestamp == timestamp && t.messages == messages
  {
    EmailThread(threadId, timestamp, messages, "")
  }

  /** The parameters the two constructors require (those without a
      default). */
  const MessageRequired: set<string> := {"subject", "sender", "recipients", "body", "timestamp"}
  const ThreadRequired: set<string> := {"thread_id", "timestamp", "messages"}

  /** Python's check of a call by keywords: the required parameters the call
      leaves out, which make it raise `TypeError`; none when it names them
      all. */
  function MissingArguments(required: set<string>, given: set<string>): (r: set<string>)
    ensures r <= required && r !! given
    ensures r == {} <==> required <= given
  {
    var r := required - given;
    assert r == {} ==> required <= given by {
      if r == {} {
        forall x | x in required
          ensures x in given
        {
          assert x !in r;
        }
      }
    }
    r
  }

  const MessageSeparator: string := "\n\n---\n\n"

  /** Each message of the thread, formatted, in order. */
  function FormattedMessages(t: EmailThread): (r: seq<string>)
    ensures |r| == |t.messages| && forall i :: 0 <= i < |r| ==> r[i] == FormatMessage(t.messages[i])
  {
    seq(|t.messages|, i requires 0 <= i < |t.messages| => FormatMessage(t.messages[i]))
  }

  /** `EmailThread.as_formatted_string` */
  function FormatThread(t: EmailThread): string {
    "Thread ID: " + t.threadId + "\n\n" + Join(MessageSeparator, FormattedMessages(t))
  }

  /** A thread without messages shows only its id line; adding a message to a
      non-empty thread appends one separator and the formatted message. */
  lemma FormatThreadAppend(t: EmailThread, m: EmailMessage)
    ensures t.messages == [] ==> FormatThread(t) == "Thread ID: " + t.threadId + "\n\n"
    ensures t.messages != [] ==>
              FormatThread(t.(messages := t.messages + [m])) == FormatThread(t) + MessageSeparator + FormatMessage(m)
  {
    if t.messages != [] {
      var u := t.(messages := t.messages + [m]);
      var fs, f := FormattedMessages(t), FormatMessage(m);
      assert FormattedMessages(u) == fs + [f];
      JoinAppend(MessageSeparator, fs, f);
      var head := "Thread ID: " + t.threadId + "\n\n";
      assert head + (Join(MessageSeparator, fs) + MessageSeparator + f)
          == head + Join(MessageSeparator, fs) + MessageSeparator + f;
    }
  }

  /** `EmailThread.__str__`: the count it reports reads back as the number of
      messages. */
  function ThreadStr(t: EmailThread): (r: string)
    ensures exists c :: r == "EmailThread(thread_id=" + t.threadId + ", messages_count=" + c + ")"
                        && ParseInt(c) == Some(|t.messages|)
  {
    var c := NatToString(|t.messages|);
    ParseIntToString(|t.messages|);
    "EmailThread(thread_id=" + t.threadId + ", messages_count=" + c + ")"
  }
}
