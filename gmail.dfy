/**
 * The local e-mail store (email_handling/gmail_handler.py): parsing a raw
 * Gmail message, merging newly fetched threads into the store, and the
 * mapping to and from the database file. The Gmail API, base64 decoding and
 * the file itself are inputs: the thread ids listed and the messages fetched
 * for a thread are given, `decode` stands for base64 and UTF-8 decoding, and
 * the database is a value.
 */
module Gmail {
  import opened Wrappers
  import opened Strings
  import opened EmailObjects

  datatype Header = Header(name: string, value: string)

  /** A part of a multipart payload: its MIME type and its body data, if any. */
  datatype Part = Part(mimeType: string, data: Option<string>)

  /** A message as the Gmail API returns it: its id, the payload's headers,
      its parts (None when the payload has no "parts" key), the payload's
      own body data, and its label ids. */
  datatype RawMessage = RawMessage(
    id: string, headers: seq<Header>, parts: Option<seq<Part>>,
    bodyData: Option<string>, labelIds: Option<seq<string>>)

  // ---------------------------------------------------------------------------
  // _parse_message
  // ---------------------------------------------------------------------------

  /** `{h['name'].lower(): h['value'] for h in headers}` */
  function HeaderDict(headers: seq<Header>): map<string, string>
    decreases |headers|
  {
    if headers == [] then map[]
    else
      var n := |headers| - 1;
      HeaderDict(headers[..n])[Lower(headers[n].name) := headers[n].value]
  }

  /** Names are matched without regard to case, and of several headers with
      the same name the last one wins. */
  lemma {:induction false} HeaderDictLastWins(headers: seq<Header>, key: string)
    ensures key in HeaderDict(headers) <==> exists i :: 0 <= i < |headers| && Lower(headers[i].name) == key
    ensures forall i :: 0 <= i < |headers| && Lower(headers[i].name) == key &&
                        (forall j :: i < j < |headers| ==> Lower(headers[j].name) != key) ==>
                          key in HeaderDict(headers) && HeaderDict(headers)[key] == headers[i].value
    decreases |headers|
  {
    if headers != [] {
      var n := |headers| - 1;
      var init := headers[..n];
      HeaderDictLastWins(init, key);
      assert forall i :: 0 <= i < n ==> init[i] == headers[i];
      if key in HeaderDict(headers) && Lower(headers[n].name) != key {
        var i :| 0 <= i < n && Lower(init[i].name) == key;
        assert Lower(headers[i].name) == key;
      }
    }
  }

  /** `d.get(key, default)` */
  function GetOr(d: map<string, string>, key: string, default: string): string {
    if key in d then d[key] else default
  }

  /** `[r.strip() for r in pieces if r.strip()]` */
  function NonBlank(pieces: seq<string>): (r: seq<string>)
    ensures |r| <= |pieces|
    decreases |pieces|
  {
    if pieces == [] then []
    else
      var n := |pieces| - 1;
      var s := Strip(pieces[n]);
      if s == "" then NonBlank(pieces[..n]) else NonBlank(pieces[..n]) + [s]
  }

  /** Non-empty texts with no white space at either end and no `c`. */
  predicate Clean(rs: seq<string>, c: char) {
    forall i :: 0 <= i < |rs| ==> rs[i] != "" && c !in rs[i] && Strip(rs[i]) == rs[i]
  }

  /** What NonBlank keeps is clean of any character no piece holds. */
  lemma {:induction false} NonBlankClean(pieces: seq<string>, c: char)
    requires forall j :: 0 <= j < |pieces| ==> c !in pieces[j]
    ensures Clean(NonBlank(pieces), c)
    decreases |pieces|
  {
    if pieces != [] {
      var n := |pieces| - 1;
      var init := pieces[..n];
      assert forall j :: 0 <= j < n ==> init[j] == pieces[j];
      NonBlankClean(init, c);
      var s := Strip(pieces[n]);
      StripIdempotent(pieces[n]);
      StripByFacts(pieces[n], IsSpace);
      assert forall x :: x in s ==> x in pieces[n];
      var r0 := NonBlank(init);
      var r := NonBlank(pieces);
      assert r == if s == "" then r0 else r0 + [s];
      forall i | 0 <= i < |r|
        ensures r[i] != "" && c !in r[i] && Strip(r[i]) == r[i]
      {
        if i < |r0| {
          assert r[i] == r0[i];
        } else {
          assert r[i] == s;
          assert c !in pieces[n];
        }
      }
    }
  }

  /** The recipients: the "To" value split at commas, each piece stripped,
      empty pieces dropped. */
  function Recipients(to: string): (r: seq<string>)
    ensures |r| <= |Split(to, ',')|
  {
    NonBlank(Split(to, ','))
  }

  /** Every recipient is a non-empty text without a comma and without
      white space at either end. */
  lemma RecipientsClean(to: string)
    ensures Clean(Recipients(to), ',')
  {
    var pieces := Split(to, ',');
    NonBlankClean(pieces, ',');
    assert Recipients(to) == NonBlank(pieces);
  }

  /** The body data of the first text/plain part that has any. */
  function PlainText(parts: seq<Part>): (r: Option<string>)
    ensures r.Some? ==> exists i :: 0 <= i < |parts| && parts[i].mimeType == "text/plain" && parts[i].data == r
                                    && forall j :: 0 <= j < i ==> !(parts[j].mimeType == "text/plain" && parts[j].data.Some?)
    ensures r.None? ==> forall i :: 0 <= i < |parts| && parts[i].mimeType == "text/plain" ==> parts[i].data.None?
    decreases |parts|
  {
    if parts == [] then None
    else if parts[0].mimeType == "text/plain" && parts[0].data.Some? then parts[0].data
    else
      var r := PlainText(parts[1..]);
      assert forall i :: 0 <= i < |parts| - 1 ==> parts[1..][i] == parts[i + 1];
      r
  }

  /** The body: from the first text/plain part with data when the payload
      has parts, else from the payload's own data, else empty. */
  function Body(raw: RawMessage, decode: string -> string): string {
    if raw.parts.Some? then
      match PlainText(raw.parts.value)
      case Some(data) => decode(data)
      case None => ""
    else if raw.bodyData.Some? then decode(raw.bodyData.value)
    else ""
  }

  /** The keywords the source passes when it builds a message
      (`_parse_message`, `_load_database`) and a thread (`_load_database`,
      `update_emails`). */
  const MessageCallKeywords: set<string> := {"subject", "sender", "recipients", "body", "labels", "message_id"}
  const ThreadCallKeywords: set<string> := {"thread_id", "messages"}

  /** As written, every message and every thread the store builds leaves out
      the required `timestamp`, so each of those calls raises `TypeError`. */
  lemma ConstructorCallsAsWritten()
    ensures MissingArguments(MessageRequired, MessageCallKeywords) == {"timestamp"}
    ensures MissingArguments(ThreadRequired, ThreadCallKeywords) == {"timestamp"}
  {
    assert "timestamp" !in MessageCallKeywords && "timestamp" !in ThreadCallKeywords;
  }

  /** `_parse_message`. The source constructs the message without a
      timestamp; the model gives it the empty one. */
  function ParseMessage(raw: RawMessage, decode: string -> string): (m: EmailMessage)
    ensures m.messageId == raw.id && m.timestamp == ""
    ensures m.labels == (if raw.labelIds.Some? then raw.labelIds.value else [])
  {
    var h := HeaderDict(raw.headers);
    NewEmailMessage(GetOr(h, "subject", "(No Subject)"), GetOr(h, "from", ""),
                    Recipients(GetOr(h, "to", "")), Body(raw, decode), "", raw.labelIds, raw.id)
  }

  /** A parsed message's recipients are clean, so `recipients_str` and a
      second parse of the "To" value give them back unchanged. */
  lemma ParsedRecipientsRoundTrip(raw: RawMessage, decode: string -> string)
    ensures var m := ParseMessage(raw, decode);
            Clean(m.recipients, ',') && Recipients(RecipientsStr(m)) == m.recipients
  {
    var m := ParseMessage(raw, decode);
    RecipientsClean(GetOr(HeaderDict(raw.headers), "to", ""));
    RecipientsRoundTrip(m.recipients);
  }

  /** Text that starts after one space and has no white space at either end
      strips back to itself. */
  lemma StripAfterSpace(r: string)
    requires r != "" && Strip(r) == r
    ensures Strip(" " + r) == r
  {
    StripByFacts(r, IsSpace);
    var s := " " + r;
    LeadFacts(r, IsSpace);
    LeadUnique(s, IsSpace, 1);
    assert s[1..] == r;
    TrailFacts(r, IsSpace);
    TrailUnique(r, IsSpace, 0);
  }

  /** A last piece that does not strip to nothing adds its stripped text. */
  lemma NonBlankLast(pieces: seq<string>)
    requires |pieces| > 0 && Strip(pieces[|pieces| - 1]) != ""
    ensures NonBlank(pieces) == NonBlank(pieces[..|pieces| - 1]) + [Strip(pieces[|pieces| - 1])]
  {
  }

  /** A name, with or without the space put before it, strips to itself. */
  lemma StripPiece(r: string, piece: string)
    requires r != "" && Strip(r) == r
    requires piece == r || piece == " " + r
    ensures Strip(piece) == r
  {
    if piece != r {
      StripAfterSpace(r);
    }
  }

  /** Reading back the recipients of `recipients_str`: a list of non-empty,
      stripped addresses without commas survives the round trip. */
  lemma {:induction false} RecipientsRoundTrip(rs: seq<string>)
    requires Clean(rs, ',')
    ensures Recipients(Join(", ", rs)) == rs
  {
    if rs == [] {
      assert Split("", ',') == [""];
    } else {
      var pieces := seq(|rs|, i requires 0 <= i < |rs| => if i == 0 then rs[0] else " " + rs[i]);
      JoinCommaSpace(rs, pieces);
      SplitJoin(pieces, ',');
      NonBlankStrips(rs, pieces);
    }
  }

  /** `", ".join(rs)` is `",".join` of the names with a space put before
      every one but the first. */
  lemma {:induction false} JoinCommaSpace(rs: seq<string>, pieces: seq<string>)
    requires |rs| >= 1 && |pieces| == |rs|
    requires pieces[0] == rs[0] && forall i :: 1 <= i < |rs| ==> pieces[i] == " " + rs[i]
    ensures Join(", ", rs) == Join([','], pieces)
    decreases |rs|
  {
    if |rs| > 1 {
      var n := |rs| - 1;
      JoinCommaSpace(rs[..n], pieces[..n]);
      JoinAppend(", ", rs[..n], rs[n]);
      JoinAppend([','], pieces[..n], pieces[n]);
      assert rs[..n] + [rs[n]] == rs;
      assert pieces[..n] + [pieces[n]] == pieces;
    }
  }

  /** Stripping those pieces gives the names back, none of them dropped. */
  lemma {:induction false} NonBlankStrips(rs: seq<string>, pieces: seq<string>)
    requires |pieces| == |rs|
    requires forall i :: 0 <= i < |rs| ==> rs[i] != "" && Strip(rs[i]) == rs[i]
    requires forall i :: 0 <= i < |rs| ==> pieces[i] == rs[i] || pieces[i] == " " + rs[i]
    ensures NonBlank(pieces) == rs
    decreases |rs|
  {
    if rs != [] {
      var n := |rs| - 1;
      var rs', ps' := rs[..n], pieces[..n];
      assert forall i :: 0 <= i < n ==> rs'[i] == rs[i] && ps'[i] == pieces[i];
      NonBlankStrips(rs', ps');
      StripPiece(rs[n], pieces[n]);
      NonBlankStep(rs, pieces);
    }
  }

  /** The step of that induction: the last piece strips to the last name. */
  lemma NonBlankStep(rs: seq<string>, pieces: seq<string>)
    requires |pieces| == |rs| > 0
    requires NonBlank(pieces[..|rs| - 1]) == rs[..|rs| - 1]
    requires rs[|rs| - 1] != "" && Strip(pieces[|rs| - 1]) == rs[|rs| - 1]
    ensures NonBlank(pieces) == rs
  {
    var n := |rs| - 1;
    NonBlankLast(pieces);
    assert rs[..n] + [rs[n]] == rs;
  }

  // ---------------------------------------------------------------------------
  // The database file
  // ---------------------------------------------------------------------------

  datatype MessageRecord = MessageRecord(
    subject: string, sender: string, recipients: seq<string>, body: string,
    labels: Option<seq<string>>, messageId: string)

  datatype ThreadRecord = ThreadRecord(threadId: string, messageIds: seq<string>)

  /** The JSON file: its "messages" and "threads" objects, None when absent. */
  datatype Database = Database(messages: Option<map<string, MessageRecord>>, threads: Option<map<string, ThreadRecord>>)

  /** The stored form of a message. */
  function Record(m: EmailMessage): MessageRecord {
    MessageRecord(m.subject, m.sender, m.recipients, m.body, Some(m.labels), m.messageId)
  }

  /** A message rebuilt from its record; the timestamp is not stored. */
  function FromRecord(r: MessageRecord): (m: EmailMessage)
    ensures Record(m) == r.(labels := Some(m.labels))
  {
    NewEmailMessage(r.subject, r.sender, r.recipients, r.body, "", r.labels, r.messageId)
  }

  /** The ids of a thread's messages, in order. */
  function MessageIds(ms: seq<EmailMessage>): (r: seq<string>)
    ensures |r| == |ms| && forall i :: 0 <= i < |ms| ==> r[i] == ms[i].messageId
  {
    seq(|ms|, i requires 0 <= i < |ms| => ms[i].messageId)
  }

  /** `[messages[i] for i in ids if i in messages]` */
  function Known(ids: seq<string>, messages: map<string, EmailMessage>): (r: seq<EmailMessage>)
    ensures |r| <= |ids|
    ensures (forall i :: 0 <= i < |ids| ==> ids[i] in messages) ==>
              |r| == |ids| && forall i :: 0 <= i < |ids| ==> r[i] == messages[ids[i]]
    decreases |ids|
  {
    if ids == [] then []
    else
      var n := |ids| - 1;
      var init := Known(ids[..n], messages);
      assert forall i :: 0 <= i < n ==> ids[..n][i] == ids[i];
      if ids[n] in messages then init + [messages[ids[n]]] else init
  }

  /** What `_save_database` writes. */
  function Saved(threads: map<string, EmailThread>, messages: map<string, EmailMessage>): Database {
    Database(Some(map k | k in messages :: Record(messages[k])),
             Some(map t | t in threads :: ThreadRecord(t, MessageIds(threads[t].messages))))
  }

  /** The messages `_load_database` rebuilds. */
  function LoadedMessages(db: Database): (r: map<string, EmailMessage>)
    ensures r.Keys == (if db.messages.Some? then db.messages.value.Keys else {})
  {
    var records := if db.messages.Some? then db.messages.value else map[];
    map k | k in records :: FromRecord(records[k])
  }

  /** The threads `_load_database` rebuilds over those messages; the thread
      timestamp is not stored either. */
  function LoadedThreads(db: Database, messages: map<string, EmailMessage>): (r: map<string, EmailThread>)
    ensures r.Keys == (if db.threads.Some? then db.threads.value.Keys else {})
  {
    var records := if db.threads.Some? then db.threads.value else map[];
    map t | t in records :: NewEmailThread(t, "", Known(records[t].messageIds, messages))
  }

  /** `_parse_message` as a function value, the parser `update_emails` uses. */
  function Parser(decode: string -> string): RawMessage -> EmailMessage {
    raw => ParseMessage(raw, decode)
  }

  /** What the store needs of a parser: it files a message under the raw
      message's id and gives it no timestamp. */
  ghost predicate KeepsIds(parse: RawMessage -> EmailMessage) {
    forall raw :: parse(raw).messageId == raw.id && parse(raw).timestamp == ""
  }

  lemma ParserKeepsIds(decode: string -> string)
    ensures KeepsIds(Parser(decode))
  {
    forall raw ensures Parser(decode)(raw).messageId == raw.id && Parser(decode)(raw).timestamp == "" {
      var m := ParseMessage(raw, decode);
    }
  }

  /** `m1` keeps every entry of `m0`. */
  ghost predicate Grows<K, V>(m0: map<K, V>, m1: map<K, V>) {
    forall k :: k in m0 ==> k in m1 && m1[k] == m0[k]
  }

  /** Every message is filed under its own id. */
  ghost predicate SelfKeyed(messages: map<string, EmailMessage>) {
    forall k :: k in messages ==> messages[k].messageId == k
  }

  /** Every thread is filed under its own id. */
  ghost predicate ThreadsKeyed(threads: map<string, EmailThread>) {
    forall t :: t in threads ==> threads[t].threadId == t
  }

  /** Every message of a thread is the one filed under its id. */
  ghost predicate Linked(threads: map<string, EmailThread>, messages: map<string, EmailMessage>) {
    forall t, i :: t in threads && 0 <= i < |threads[t].messages| ==>
      threads[t].messages[i].messageId in messages
      && messages[threads[t].messages[i].messageId] == threads[t].messages[i]
  }

  /** No timestamps and no summaries: what the database file can hold. */
  ghost predicate Bare(threads: map<string, EmailThread>, messages: map<string, EmailMessage>) {
    && (forall k :: k in messages ==> messages[k].timestamp == "")
    && (forall t :: t in threads ==> threads[t].timestamp == "" && threads[t].summary == "")
  }

  /** Each new thread is stored under its id, without a summary, with the
      stored messages of the ids fetched for it, in order. */
  ghost predicate NewThreadsFetched(t0: map<string, EmailThread>, t1: map<string, EmailThread>,
                                    m1: map<string, EmailMessage>, fetch: string -> seq<RawMessage>)
  {
    forall t :: t in t1 && t !in t0 ==>
      && t1[t] == NewEmailThread(t, "", t1[t].messages)
      && |t1[t].messages| == |fetch(t)|
      && forall i :: 0 <= i < |fetch(t)| ==>
           fetch(t)[i].id in m1 && t1[t].messages[i] == m1[fetch(t)[i].id]
  }

  /** Each new message is one fetched for a new thread, parsed. */
  ghost predicate NewMessagesParsed(t0: map<string, EmailThread>, t1: map<string, EmailThread>,
                                    m0: map<string, EmailMessage>, m1: map<string, EmailMessage>,
                                    fetch: string -> seq<RawMessage>, parse: RawMessage -> EmailMessage)
  {
    forall k :: k in m1 && k !in m0 ==>
      exists t, i :: t in t1 && t !in t0 && 0 <= i < |fetch(t)| && fetch(t)[i].id == k && m1[k] == parse(fetch(t)[i])
  }

  /** The first loop of `_load_database`: every stored record becomes a
      message under its key. */
  method LoadMessages(records: map<string, MessageRecord>) returns (ms: map<string, EmailMessage>)
    ensures ms == LoadedMessages(Database(Some(records), None))
  {
    ms := map[];
    var left := records.Keys;
    while left != {}
      invariant left <= records.Keys
      invariant ms.Keys == records.Keys - left
      invariant forall k :: k in ms ==> ms[k] == FromRecord(records[k])
      decreases left
    {
      var k :| k in left;
      ms := ms[k := FromRecord(records[k])];
      left := left - {k};
    }
  }

  /** The second loop of `_load_database`: every stored thread becomes a
      thread of the messages its ids name, skipping ids not loaded. */
  method LoadThreads(records: map<string, ThreadRecord>, ms: map<string, EmailMessage>)
    returns (ts: map<string, EmailThread>)
    ensures ts == LoadedThreads(Database(None, Some(records)), ms)
  {
    ts := map[];
    var left := records.Keys;
    while left != {}
      invariant left <= records.Keys
      invariant ts.Keys == records.Keys - left
      invariant forall t :: t in ts ==> ts[t] == NewEmailThread(t, "", Known(records[t].messageIds, ms))
      decreases left
    {
      var t :| t in left;
      ts := ts[t := NewEmailThread(t, "", Known(records[t].messageIds, ms))];
      left := left - {t};
    }
  }

  /** The inner loop of `update_emails` for one new thread, over the
      message store `m0`: a message already stored is reused; any other is
      parsed and stored under its id. */
  method StoreMessages(m0: map<string, EmailMessage>, raws: seq<RawMessage>, parse: RawMessage -> EmailMessage)
    returns (ms: map<string, EmailMessage>, msgs: seq<EmailMessage>)
    ensures Grows(m0, ms)
    ensures forall k :: k in ms && k !in m0 ==>
              exists i :: 0 <= i < |raws| && raws[i].id == k && ms[k] == parse(raws[i])
    ensures |msgs| == |raws|
    ensures forall i :: 0 <= i < |raws| ==> raws[i].id in ms && msgs[i] == ms[raws[i].id]
  {
    ms := m0;
    ghost var source: map<string, nat> := map[];
    msgs := [];
    var j := 0;
    while j < |raws|
      invariant 0 <= j <= |raws| && |msgs| == j
      invariant Grows(m0, ms)
      invariant forall k :: k in ms && k !in m0 ==>
                  k in source && source[k] < j && raws[source[k]].id == k && ms[k] == parse(raws[source[k]])
      invariant forall i :: 0 <= i < j ==> raws[i].id in ms && msgs[i] == ms[raws[i].id]
    {
      var id := raws[j].id;
      if id in ms {
        msgs := msgs + [ms[id]];
      } else {
        var m := parse(raws[j]);
        ms := ms[id := m];
        source := source[id := j];
        msgs := msgs + [m];
      }
      j := j + 1;
    }
    forall k | k in ms && k !in m0
      ensures exists i :: 0 <= i < |raws| && raws[i].id == k && ms[k] == parse(raws[i])
    {
      assert raws[source[k]].id == k;
    }
  }

  /** The thread ids among the first `k` listed. */
  ghost function ListedPrefix(listed: seq<string>, k: nat): (r: set<string>)
    requires k <= |listed|
    ensures forall t :: t in r <==> exists i :: 0 <= i < k && listed[i] == t
  {
    set i | 0 <= i < k :: listed[i]
  }

  /** The merge loop of `update_emails` over the store `t0`, `m0`, with the
      parser as a parameter: every listed thread ends up stored, stored
      threads and messages are kept, and what is new was fetched and
      parsed. */
  method MergeThreads(t0: map<string, EmailThread>, m0: map<string, EmailMessage>, listed: seq<string>,
                      fetch: string -> seq<RawMessage>, parse: RawMessage -> EmailMessage)
    returns (ts: map<string, EmailThread>, ms: map<string, EmailMessage>)
    ensures ts.Keys == t0.Keys + ListedPrefix(listed, |listed|)
    ensures Grows(t0, ts) && Grows(m0, ms)
    ensures NewThreadsFetched(t0, ts, ms, fetch)
    ensures NewMessagesParsed(t0, ts, m0, ms, fetch, parse)
  {
    ts, ms := t0, m0;
    var k := 0;
    while k < |listed|
      invariant 0 <= k <= |listed|
      invariant ts.Keys == t0.Keys + ListedPrefix(listed, k)
      invariant Grows(t0, ts) && Grows(m0, ms)
      invariant NewThreadsFetched(t0, ts, ms, fetch)
      invariant NewMessagesParsed(t0, ts, m0, ms, fetch, parse)
    {
      var t := listed[k];
      assert ListedPrefix(listed, k + 1) == ListedPrefix(listed, k) + {t};
      if t !in ts {
        var ms', msgs := StoreMessages(ms, fetch(t), parse);
        var ts' := ts[t := NewEmailThread(t, "", msgs)];
        MergeStep(t0, m0, ts, ms, ts', ms', t, fetch, parse);
        ts, ms := ts', ms';
      }
      k := k + 1;
    }
  }

  class GmailHandler {
    var threads: map<string, EmailThread>
    var messages: map<string, EmailMessage>

    ghost predicate Valid()
      reads this
    {
      SelfKeyed(messages) && ThreadsKeyed(threads) && Linked(threads, messages)
    }

    /** `GmailHandler.__init__` with `_load_database`; `db` is None when the
        file does not exist. */
    constructor (db: Option<Database>)
      ensures db.None? ==> threads == map[] && messages == map[]
      ensures db.Some? ==> messages == LoadedMessages(db.value)
      ensures db.Some? ==> threads == LoadedThreads(db.value, messages)
    {
      threads := map[];
      messages := map[];
      new;
      if db.Some? {
        Load(db.value);
      }
    }

    /** `_load_database`: the messages are rebuilt first, the threads over
        them. */
    method Load(db: Database)
      modifies this
      ensures messages == LoadedMessages(db) && threads == LoadedThreads(db, messages)
    {
      var ms := LoadMessages(if db.messages.Some? then db.messages.value else map[]);
      var ts := LoadThreads(if db.threads.Some? then db.threads.value else map[], ms);
      messages, threads := ms, ts;
    }

    /** `_save_database`: the two loops that build the file's contents. */
    method Save() returns (db: Database)
      ensures db == Saved(threads, messages)
    {
      var messagesData: map<string, MessageRecord> := map[];
      var left := messages.Keys;
      while left != {}
        invariant left <= messages.Keys
        invariant messagesData.Keys == messages.Keys - left
        invariant forall k :: k in messagesData ==> messagesData[k] == Record(messages[k])
        decreases left
      {
        var k :| k in left;
        messagesData := messagesData[k := Record(messages[k])];
        left := left - {k};
      }
      assert messagesData == map k | k in messages :: Record(messages[k]);
      var threadsData: map<string, ThreadRecord> := map[];
      left := threads.Keys;
      while left != {}
        invariant left <= threads.Keys
        invariant threadsData.Keys == threads.Keys - left
        invariant forall t :: t in threadsData ==> threadsData[t] == ThreadRecord(t, MessageIds(threads[t].messages))
        decreases left
      {
        var t :| t in left;
        threadsData := threadsData[t := ThreadRecord(t, MessageIds(threads[t].messages))];
        left := left - {t};
      }
      assert threadsData == map t | t in threads :: ThreadRecord(t, MessageIds(threads[t].messages));
      db := Database(Some(messagesData), Some(threadsData));
    }

    /** `get_thread` */
    function GetThread(threadId: string): (r: Option<EmailThread>)
      reads this
      ensures r.Some? <==> threadId in threads
      ensures r.Some? ==> r.value == threads[threadId]
    {
      if threadId in threads then Some(threads[threadId]) else None
    }

    /** `get_message` */
    function GetMessage(messageId: string): (r: Option<EmailMessage>)
      reads this
      ensures r.Some? <==> messageId in messages
      ensures r.Some? ==> r.value == messages[messageId]
    {
      if messageId in messages then Some(messages[messageId]) else None
    }

    /** `update_emails`: `listed` are the thread ids the API lists and
        `fetch` the messages it returns for a thread. A thread already stored
        is skipped; a new one is stored with its messages, each parsed by
        `_parse_message` unless its id is stored already. The store is then
        saved; `db` is what is written. */
    method UpdateEmails(listed: seq<string>, fetch: string -> seq<RawMessage>, decode: string -> string)
      returns (db: Database)
      modifies this
      ensures threads.Keys == old(threads).Keys + ListedPrefix(listed, |listed|)
      ensures Grows(old(threads), threads) && Grows(old(messages), messages)
      ensures NewThreadsFetched(old(threads), threads, messages, fetch)
      ensures NewMessagesParsed(old(threads), threads, old(messages), messages, fetch, Parser(decode))
      ensures old(Valid()) ==> Valid()
      ensures Bare(old(threads), old(messages)) ==> Bare(threads, messages)
      ensures db == Saved(threads, messages)
    {
      threads, messages := MergeThreads(threads, messages, listed, fetch, Parser(decode));
      db := Save();
      ParserKeepsIds(decode);
      UpdatePreserves(old(threads), old(messages), threads, messages, fetch, Parser(decode));
    }
  }

  /** One new thread stored keeps both merge properties. */
  lemma MergeStep(t0: map<string, EmailThread>, m0: map<string, EmailMessage>,
                  ta: map<string, EmailThread>, ma: map<string, EmailMessage>,
                  tb: map<string, EmailThread>, mb: map<string, EmailMessage>,
                  t: string, fetch: string -> seq<RawMessage>, parse: RawMessage -> EmailMessage)
    requires Grows(t0, ta) && Grows(m0, ma) && t !in ta && t in tb && tb == ta[t := tb[t]]
    requires NewThreadsFetched(t0, ta, ma, fetch) && NewMessagesParsed(t0, ta, m0, ma, fetch, parse)
    requires Grows(ma, mb)
    requires forall k :: k in mb && k !in ma ==>
               exists i :: 0 <= i < |fetch(t)| && fetch(t)[i].id == k && mb[k] == parse(fetch(t)[i])
    requires tb[t] == NewEmailThread(t, "", tb[t].messages) && |tb[t].messages| == |fetch(t)|
    requires forall i :: 0 <= i < |fetch(t)| ==> fetch(t)[i].id in mb && tb[t].messages[i] == mb[fetch(t)[i].id]
    ensures Grows(t0, tb) && Grows(m0, mb)
    ensures NewThreadsFetched(t0, tb, mb, fetch) && NewMessagesParsed(t0, tb, m0, mb, fetch, parse)
  {
    forall k | k in mb && k !in m0
      ensures exists u, i :: u in tb && u !in t0 && 0 <= i < |fetch(u)| && fetch(u)[i].id == k && mb[k] == parse(fetch(u)[i])
    {
      if k !in ma {
        var i :| 0 <= i < |fetch(t)| && fetch(t)[i].id == k && mb[k] == parse(fetch(t)[i]);
        assert t in tb && t !in t0;
      } else {
        var u, i :| u in ta && u !in t0 && 0 <= i < |fetch(u)| && fetch(u)[i].id == k && ma[k] == parse(fetch(u)[i]);
        assert u in tb;
      }
    }
  }

  /** A merge keeps the store consistent and free of what the file cannot
      hold, when the parser files each message under its id. */
  lemma UpdatePreserves(t0: map<string, EmailThread>, m0: map<string, EmailMessage>,
                        t1: map<string, EmailThread>, m1: map<string, EmailMessage>,
                        fetch: string -> seq<RawMessage>, parse: RawMessage -> EmailMessage)
    requires KeepsIds(parse)
    requires Grows(t0, t1) && Grows(m0, m1)
    requires NewThreadsFetched(t0, t1, m1, fetch)
    requires NewMessagesParsed(t0, t1, m0, m1, fetch, parse)
    ensures SelfKeyed(m0) ==> SelfKeyed(m1)
    ensures ThreadsKeyed(t0) ==> ThreadsKeyed(t1)
    ensures SelfKeyed(m0) && Linked(t0, m0) ==> Linked(t1, m1)
    ensures Bare(t0, m0) ==> Bare(t1, m1)
  {
    forall k | k in m1 && k !in m0
      ensures m1[k].messageId == k && m1[k].timestamp == ""
    {
      var t, i :| t in t1 && t !in t0 && 0 <= i < |fetch(t)| && fetch(t)[i].id == k && m1[k] == parse(fetch(t)[i]);
    }
    if SelfKeyed(m0) && Linked(t0, m0) {
      forall t, i | t in t1 && 0 <= i < |t1[t].messages|
        ensures t1[t].messages[i].messageId in m1 && m1[t1[t].messages[i].messageId] == t1[t].messages[i]
      {
        if t !in t0 {
          var id := fetch(t)[i].id;
          assert t1[t].messages[i] == m1[id];
        }
      }
    }
  }

  /** Saving and loading again gives back the same store, when the store is
      consistent and holds nothing the file cannot. */
  lemma SaveLoadRoundTrip(threads: map<string, EmailThread>, messages: map<string, EmailMessage>)
    requires SelfKeyed(messages) && ThreadsKeyed(threads) && Linked(threads, messages)
    requires Bare(threads, messages)
    ensures LoadedMessages(Saved(threads, messages)) == messages
    ensures LoadedThreads(Saved(threads, messages), messages) == threads
  {
    SavedMessagesLoad(threads, messages);
    SavedThreadsLoad(threads, messages);
  }

  /** The message records of a saved store rebuild its messages. */
  lemma SavedMessagesLoad(threads: map<string, EmailThread>, messages: map<string, EmailMessage>)
    requires SelfKeyed(messages) && Bare(threads, messages)
    ensures LoadedMessages(Saved(threads, messages)) == messages
  {
    var loaded := LoadedMessages(Saved(threads, messages));
    forall k | k in messages
      ensures loaded[k] == messages[k]
    {
      assert FromRecord(Record(messages[k])) == messages[k];
    }
  }

  /** The thread records of a saved store rebuild its threads over its
      messages. */
  lemma SavedThreadsLoad(threads: map<string, EmailThread>, messages: map<string, EmailMessage>)
    requires ThreadsKeyed(threads) && Linked(threads, messages) && Bare(threads, messages)
    ensures LoadedThreads(Saved(threads, messages), messages) == threads
  {
    var loaded := LoadedThreads(Saved(threads, messages), messages);
    forall t | t in threads
      ensures loaded[t] == threads[t]
    {
      var th := threads[t];
      assert forall i :: 0 <= i < |th.messages| ==>
        th.messages[i].messageId in messages && messages[th.messages[i].messageId] == th.messages[i];
      ThreadLoads(th, messages);
    }
  }

  /** One bare thread whose messages are the stored ones is rebuilt from
      its record. */
  lemma ThreadLoads(th: EmailThread, messages: map<string, EmailMessage>)
    requires th.timestamp == "" && th.summary == ""
    requires forall i :: 0 <= i < |th.messages| ==>
               th.messages[i].messageId in messages && messages[th.messages[i].messageId] == th.messages[i]
    ensures NewEmailThread(th.threadId, "", Known(MessageIds(th.messages), messages)) == th
  {
    var ids := MessageIds(th.messages);
    assert Known(ids, messages) == th.messages;
  }
}
