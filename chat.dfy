/**
 * The chat widget of static/script.js with the DOM abstracted away: the children
 * of the chat panel are a sequence of entries, the controls and the file-detail
 * labels are fields, every alert() is appended to `alerts`, and every fetch the
 * page issues is appended to `requests`. How each awaited fetch settles, the
 * confirm() answer, the loading id and the upload time are parameters.
 */
module Chat {
  import opened Wrappers
  import opened JsText

  datatype Sender = User | Assistant

  /** One child of the chat panel. */
  datatype Entry =
    | Empty                             // the empty-chat-state placeholder
    | Msg(sender: Sender, text: string) // a message bubble, its text shown verbatim
    | Loading(id: string)               // the "Thinking..." bubble and its element id

  /** How an awaited fetch settled: 2xx with its parsed body, non-2xx with the server's detail, or an exception. */
  datatype Reply<T> = Ok(body: T) | Failed(detail: string) | Thrown(message: string)

  /** The fields of the upload response that the page reads. */
  datatype UploadBody = UploadBody(filename: string, contentType: string, size: int)

  /** The requests the page sends. */
  datatype Request =
    | CleanupAll
    | Upload(fileName: string, sessionId: string)
    | Query(query: string, sessionId: string)
    | Clear(sessionId: string)

  /** The file-size label: the '-' placeholder or the formatted byte count of an upload. */
  datatype SizeText = NoSize | FormattedBytes(bytes: int)

  /** Everything the upload and clear handlers may change on screen. */
  datatype View = View(
    transcript: seq<Entry>,
    chatVisible: bool,
    detailsVisible: bool,
    fileName: string,
    fileType: string,
    fileSize: SizeText,
    uploadTime: string)

  /** The screen after a successful clear: placeholder only, chat and details hidden, every label '-'. */
  const ResetView := View([Empty], false, false, "-", "-", NoSize, "-")

  predicate IsUser(e: Entry) { e.Msg? && e.sender == User }
  predicate IsAssistant(e: Entry) { e.Msg? && e.sender == Assistant }

  /** Text that submitQuery accepts and posts: non-empty, with no whitespace at either end. */
  predicate IsQueryText(q: string) { q != [] && !IsWhitespace(q[0]) && !IsWhitespace(q[|q| - 1]) }

  /** The queries submitQuery posts are exactly the non-empty trimmed texts. */
  lemma QueryTextIsTrimmed(q: string)
    ensures IsQueryText(q) <==> q != [] && Trim(q) == q
  {
    if IsQueryText(q) {
      assert LeadingSpace(q) == 0 && TrailingSpace(q) == 0;
      assert q[0..|q|] == q;
    }
  }

  /**
   * A conversation: at least one message bubble and nothing else, every user
   * message a trimmed query, every assistant message right after a user message.
   */
  predicate ChatLog(t: seq<Entry>) {
    && |t| > 0
    && (forall i :: 0 <= i < |t| ==> t[i].Msg?)
    && (forall i :: 0 <= i < |t| && IsUser(t[i]) ==> IsQueryText(t[i].text))
    && (forall i :: 0 <= i < |t| && IsAssistant(t[i]) ==> 0 < i && IsUser(t[i - 1]))
  }

  /** The panel between handlers: the placeholder alone, or a conversation. */
  predicate Settled(t: seq<Entry>) { t == [Empty] || ChatLog(t) }

  /**
   * Removing a DOM node found by querySelector or getElementById: the first
   * entry equal to `x` goes, everything else keeps its order; no match, no change.
   */
  function RemoveFirst<T(==)>(s: seq<T>, x: T): (r: seq<T>)
    ensures x !in s ==> r == s
    ensures |r| == if x in s then |s| - 1 else |s|
  {
    if s == [] then []
    else if s[0] == x then
      assert s == [s[0]] + s[1..];
      s[1..]
    else
      assert s == [s[0]] + s[1..];
      [s[0]] + RemoveFirst(s[1..], x)
  }

  /** Exactly one occurrence of `x` goes, and nothing else. */
  lemma {:induction false} RemoveFirstMultiset<T>(s: seq<T>, x: T)
    ensures multiset(RemoveFirst(s, x)) == multiset(s) - multiset{x}
  {
    if s != [] {
      assert s == [s[0]] + s[1..];
      RemoveFirstMultiset(s[1..], x);
      if s[0] != x {
        assert RemoveFirst(s, x) == [s[0]] + RemoveFirst(s[1..], x);
        assert multiset(s) == multiset{s[0]} + multiset(s[1..]);
      }
    }
  }

  /** When the first `x` of `s` sits at index i, exactly that element is removed. */
  lemma {:induction false} RemoveFirstAt<T>(s: seq<T>, x: T, i: nat)
    requires i < |s| && s[i] == x && x !in s[..i]
    ensures RemoveFirst(s, x) == s[..i] + s[i + 1..]
  {
    if i > 0 {
      assert s[1..][..i - 1] == s[1..i];
      assert s[..i] == [s[0]] + s[1..i];
      RemoveFirstAt(s[1..], x, i - 1);
      assert s[..i] == [s[0]] + s[1..][..i - 1];
      assert s[i + 1..] == s[1..][i..];
    }
  }

  /** The message bubbles of a panel, in order, without the placeholder and loading bubbles. */
  function Messages(t: seq<Entry>): (r: seq<Entry>)
    ensures |r| <= |t|
    ensures forall i :: 0 <= i < |r| ==> r[i].Msg?
  {
    if t == [] then []
    else
      assert t == [t[0]] + t[1..];
      (if t[0].Msg? then [t[0]] else []) + Messages(t[1..])
  }

  /** The assistant bubble a settled query adds: one on a 2xx reply, none otherwise. */
  function Answer(reply: Reply<string>): seq<Entry> {
    if reply.Ok? then [Msg(Assistant, reply.body)] else []
  }

  /** The alert a handler raises when its fetch fails: "<failedPrefix><detail>" or "<thrownPrefix><message>". */
  function FailureAlerts<T>(reply: Reply<T>, failedPrefix: string, thrownPrefix: string): seq<string> {
    match reply
    case Ok(_) => []
    case Failed(d) => [failedPrefix + d]
    case Thrown(m) => [thrownPrefix + m]
  }

  lemma {:induction false} MessagesAppend(a: seq<Entry>, b: seq<Entry>)
    ensures Messages(a + b) == Messages(a) + Messages(b)
  {
    if a == [] {
      assert a + b == b;
    } else {
      assert (a + b)[0] == a[0];
      assert (a + b)[1..] == a[1..] + b;
      MessagesAppend(a[1..], b);
    }
  }

  lemma {:induction false} MessagesOfBubbles(t: seq<Entry>)
    requires forall i :: 0 <= i < |t| ==> t[i].Msg?
    ensures Messages(t) == t
  {
    if t != [] {
      MessagesOfBubbles(t[1..]);
    }
  }

  /**
   * On a settled panel, removing the placeholder leaves exactly the conversation:
   * nothing for the placeholder alone, the whole panel for a conversation.
   */
  lemma PlaceholderRemoval(t: seq<Entry>)
    requires Settled(t)
    ensures RemoveFirst(t, Empty) == Messages(t)
    ensures t == [Empty] ==> Messages(t) == []
    ensures ChatLog(t) ==> Messages(t) == t && Empty !in t
  {
    if ChatLog(t) {
      MessagesOfBubbles(t);
    }
  }

  /** A conversation stays one when a trimmed query, or an answer right after a query, is appended. */
  lemma ChatLogExtend(t: seq<Entry>, e: Entry)
    requires t == [] || ChatLog(t)
    requires IsUser(e) ==> IsQueryText(e.text)
    requires e.Msg? && (IsAssistant(e) ==> t != [] && IsUser(t[|t| - 1]))
    ensures ChatLog(t + [e])
  {
    var u := t + [e];
    assert forall i :: 0 <= i < |t| ==> u[i] == t[i];
    assert u[|t|] == e;
  }

  /** A trimmed query added to a settled panel replaces the placeholder and gives a conversation ending in that query. */
  lemma QueryAppend(t: seq<Entry>, q: string)
    requires Settled(t) && IsQueryText(q)
    ensures RemoveFirst(t, Empty) == Messages(t)
    ensures ChatLog(Messages(t) + [Msg(User, q)])
  {
    PlaceholderRemoval(t);
    ChatLogExtend(Messages(t), Msg(User, q));
  }

  /** Removing the loading bubble of the query in flight leaves the conversation before it. */
  lemma LoadingRemoval(log: seq<Entry>, id: string)
    requires ChatLog(log)
    ensures RemoveFirst(log + [Loading(id)], Loading(id)) == log
  {
    var t := log + [Loading(id)];
    assert Loading(id) !in log;
    assert t[..|log|] == log;
    RemoveFirstAt(t, Loading(id), |log|);
    assert t[|log| + 1..] == [];
  }

  /** An answer to the last user message extends the conversation at its end. */
  lemma AnswerAppend(log: seq<Entry>, response: string)
    requires ChatLog(log) && IsUser(log[|log| - 1])
    ensures RemoveFirst(log, Empty) + [Msg(Assistant, response)] == log + [Msg(Assistant, response)]
    ensures ChatLog(log + [Msg(Assistant, response)])
  {
    PlaceholderRemoval(log);
    ChatLogExtend(log, Msg(Assistant, response));
  }

  class Page {
    const sessionId: string
    var transcript: seq<Entry>
    var input: string
    var askDisabled: bool
    var chatVisible: bool
    var detailsVisible: bool
    var fileName: string
    var fileType: string
    var fileSize: SizeText
    var uploadTime: string
    var alerts: seq<string>
    var requests: seq<Request>

    /** Between handlers the panel is settled and the Ask button is enabled. */
    ghost predicate Valid()
      reads this
    {
      Settled(transcript) && !askDisabled
    }

    /** While a query is awaited: Ask is disabled and the panel is a conversation `log`, ending in a user message, then its loading bubble. */
    ghost predicate InFlight(loadingId: string, log: seq<Entry>)
      reads this
    {
      && askDisabled
      && ChatLog(log)
      && IsUser(log[|log| - 1])
      && transcript == log + [Loading(loadingId)]
    }

    function Screen(): View
      reads this
    {
      View(transcript, chatVisible, detailsVisible, fileName, fileType, fileSize, uploadTime)
    }

    /**
     * Page load: the session id is fixed for the page and the best-effort
     * cleanup-all request is sent; its outcome is only logged.
     */
    constructor (sessionId: string)
      ensures Valid() && Screen() == ResetView
      ensures this.sessionId == sessionId && input == []
      ensures alerts == [] && requests == [CleanupAll]
    {
      this.sessionId := sessionId;
      transcript := [Empty];
      input := [];
      askDisabled := false;
      chatVisible, detailsVisible := false, false;
      fileName, fileType, fileSize, uploadTime := "-", "-", NoSize, "-";
      alerts := [];
      requests := [CleanupAll];
    }

    /** The user edits the query textarea. */
    method EnterQueryText(text: string)
      modifies this`input
      ensures input == text
    {
      input := text;
    }

    method AddMessageToChat(content: string, sender: Sender)
      modifies this`transcript
      ensures transcript == RemoveFirst(old(transcript), Empty) + [Msg(sender, content)]
    {
      transcript := RemoveFirst(transcript, Empty) + [Msg(sender, content)];
    }

    method AddLoadingMessage(loadingId: string) returns (id: string)
      modifies this`transcript
      ensures id == loadingId && transcript == old(transcript) + [Loading(loadingId)]
    {
      transcript := transcript + [Loading(loadingId)];
      id := loadingId;
    }

    method RemoveLoadingMessage(loadingId: string)
      modifies this`transcript
      ensures transcript == RemoveFirst(old(transcript), Loading(loadingId))
    {
      transcript := RemoveFirst(transcript, Loading(loadingId));
    }

    method ClearChatUI()
      modifies this`transcript
      ensures transcript == [Empty]
    {
      transcript := [Empty];
    }

    /**
     * uploadFile: with no file selected only an alert; otherwise the upload is
     * sent and, on success, the details show the reply, the chat opens and the
     * panel is reset; on failure only an alert.
     */
    method UploadFile(selected: Option<string>, reply: Reply<UploadBody>, now: string)
      requires Valid()
      modifies this`transcript, this`chatVisible, this`detailsVisible, this`fileName, this`fileType
      modifies this`fileSize, this`uploadTime, this`alerts, this`requests
      ensures Valid()
      ensures selected.None? ==>
        Screen() == old(Screen()) && alerts == old(alerts) + ["Please select a file"] && requests == old(requests)
      ensures selected.Some? ==> requests == old(requests) + [Upload(selected.value, sessionId)]
      ensures selected.Some? && reply.Ok? ==>
        && Screen() == View([Empty], true, true, reply.body.filename, reply.body.contentType, FormattedBytes(reply.body.size), now)
        && alerts == old(alerts)
      ensures selected.Some? && !reply.Ok? ==>
        && Screen() == old(Screen())
        && alerts == old(alerts) + FailureAlerts(reply, "Upload failed: ", "Error uploading file: ")
    {
      if selected.None? {
        alerts := alerts + ["Please select a file"];
        return;
      }
      requests := requests + [Upload(selected.value, sessionId)];
      match reply
      case Ok(body) =>
        detailsVisible := true;
        fileName := body.filename;
        fileType := body.contentType;
        fileSize := FormattedBytes(body.size);
        uploadTime := now;
        chatVisible := true;
        ClearChatUI();
      case Failed(detail) =>
        alerts := alerts + ["Upload failed: " + detail];
      case Thrown(message) =>
        alerts := alerts + ["Error uploading file: " + message];
    }

    /**
     * submitQuery up to its await: an empty trimmed query only raises an alert;
     * otherwise Ask is disabled, the user bubble and then the loading bubble are
     * appended, the textarea is emptied and the query is posted.
     */
    method BeginQuery(loadingId: string) returns (started: bool)
      requires Valid()
      modifies this`askDisabled, this`transcript, this`input, this`alerts, this`requests
      ensures started == (Trim(old(input)) != [])
      ensures !started ==>
        && transcript == old(transcript) && input == old(input) && !askDisabled
        && alerts == old(alerts) + ["Please enter a query"] && requests == old(requests)
      ensures started ==>
        && InFlight(loadingId, Messages(old(transcript)) + [Msg(User, Trim(old(input)))]) && input == []
        && transcript == Messages(old(transcript)) + [Msg(User, Trim(old(input))), Loading(loadingId)]
        && alerts == old(alerts) && requests == old(requests) + [Query(Trim(old(input)), sessionId)]
    {
      var query := Trim(input);
      if query == [] {
        alerts := alerts + ["Please enter a query"];
        return false;
      }
      askDisabled := true;
      ghost var log := Messages(transcript) + [Msg(User, query)];
      QueryAppend(transcript, query);
      AddMessageToChat(query, User);
      assert transcript == log;
      input := [];
      var id := AddLoadingMessage(loadingId);
      requests := requests + [Query(query, sessionId)];
      started := true;
      assert InFlight(loadingId, log);
    }

    /**
     * submitQuery after its await: the loading bubble goes, a 2xx reply adds the
     * assistant bubble, a failure only an alert, and Ask is enabled again in every case.
     */
    method SettleQuery(loadingId: string, ghost log: seq<Entry>, reply: Reply<string>)
      requires InFlight(loadingId, log)
      modifies this`askDisabled, this`transcript, this`alerts
      ensures Valid()
      ensures transcript == log + Answer(reply)
      ensures alerts == old(alerts) + FailureAlerts(reply, "Query failed: ", "Error processing query: ")
    {
      LoadingRemoval(log, loadingId);
      RemoveLoadingMessage(loadingId);
      match reply {
        case Ok(response) =>
          AnswerAppend(log, response);
          AddMessageToChat(response, Assistant);
        case Failed(detail) =>
          alerts := alerts + ["Query failed: " + detail];
        case Thrown(message) =>
          alerts := alerts + ["Error processing query: " + message];
      }
      askDisabled := false;
    }

    /**
     * submitQuery as one handler: the conversation grows by the user's trimmed
     * query and, on a 2xx reply only, the answer; the entries before it stay in
     * place, and Ask ends enabled whatever happened.
     */
    method SubmitQuery(loadingId: string, reply: Reply<string>)
      requires Valid()
      modifies this`askDisabled, this`transcript, this`input, this`alerts, this`requests
      ensures Valid()
      ensures Trim(old(input)) == [] ==>
        && transcript == old(transcript) && input == old(input)
        && alerts == old(alerts) + ["Please enter a query"] && requests == old(requests)
      ensures Trim(old(input)) != [] ==>
        && transcript == Messages(old(transcript)) + [Msg(User, Trim(old(input)))] + Answer(reply)
        && input == []
        && alerts == old(alerts) + FailureAlerts(reply, "Query failed: ", "Error processing query: ")
        && requests == old(requests) + [Query(Trim(old(input)), sessionId)]
    {
      var started := BeginQuery(loadingId);
      if started {
        SettleQuery(loadingId, Messages(old(transcript)) + [Msg(User, Trim(old(input)))], reply);
      }
    }

    /**
     * clearHistory: a cancelled confirm changes nothing and sends nothing; a
     * successful clear resets the panel, hides the chat and details and resets
     * every label; a failed one only raises an alert.
     */
    method ClearHistory(confirmed: bool, reply: Reply<string>)
      requires Valid()
      modifies this`transcript, this`chatVisible, this`detailsVisible, this`fileName, this`fileType
      modifies this`fileSize, this`uploadTime, this`alerts, this`requests
      ensures Valid()
      ensures !confirmed ==> Screen() == old(Screen()) && alerts == old(alerts) && requests == old(requests)
      ensures confirmed ==> requests == old(requests) + [Clear(sessionId)]
      ensures confirmed && reply.Ok? ==> Screen() == ResetView && alerts == old(alerts) + [reply.body]
      ensures confirmed && !reply.Ok? ==>
        && Screen() == old(Screen())
        && alerts == old(alerts) + FailureAlerts(reply, "Failed to clear history: ", "Error clearing history: ")
    {
      if !confirmed {
        return;
      }
      requests := requests + [Clear(sessionId)];
      match reply
      case Ok(message) =>
        ClearChatUI();
        chatVisible := false;
        detailsVisible := false;
        fileName, fileType, fileSize, uploadTime := "-", "-", NoSize, "-";
        alerts := alerts + [message];
      case Failed(detail) =>
        alerts := alerts + ["Failed to clear history: " + detail];
      case Thrown(message) =>
        alerts := alerts + ["Error clearing history: " + message];
    }
  }

  /** Two queries, each awaited, answered in turn: the panel reads user, assistant, user, assistant. */
  method TwoQueriesInOrder(sessionId: string, q1: string, r1: string, q2: string, r2: string, id1: string, id2: string)
    returns (panel: seq<Entry>)
    requires IsQueryText(q1) && IsQueryText(q2)
    ensures panel == [Msg(User, q1), Msg(Assistant, r1), Msg(User, q2), Msg(Assistant, r2)]
  {
    QueryTextIsTrimmed(q1);
    QueryTextIsTrimmed(q2);
    var page := new Page(sessionId);
    page.EnterQueryText(q1);
    PlaceholderRemoval([Empty]);
    page.SubmitQuery(id1, Ok(r1));
    ghost var first := [Msg(User, q1), Msg(Assistant, r1)];
    assert page.transcript == first;
    page.EnterQueryText(q2);
    MessagesOfBubbles(first);
    page.SubmitQuery(id2, Ok(r2));
    panel := page.transcript;
  }

  /** A rejected query keeps the user's bubble, adds no answer and leaves Ask enabled. */
  method FailedQueryKeepsQuestion(sessionId: string, q: string, detail: string, id: string)
    returns (panel: seq<Entry>, askDisabled: bool, lastAlert: string)
    requires IsQueryText(q)
    ensures panel == [Msg(User, q)] && !askDisabled && lastAlert == "Query failed: " + detail
  {
    QueryTextIsTrimmed(q);
    var page := new Page(sessionId);
    page.EnterQueryText(q);
    PlaceholderRemoval([Empty]);
    page.SubmitQuery(id, Failed(detail));
    panel, askDisabled, lastAlert := page.transcript, page.askDisabled, page.alerts[|page.alerts| - 1];
  }

  /** An upload opens the chat; a confirmed successful clear brings back the screen of a fresh page. */
  method UploadThenClear(sessionId: string, file: UploadBody, now: string, message: string)
    returns (afterUpload: View, screen: View, sent: seq<Request>)
    ensures afterUpload.chatVisible && afterUpload.transcript == [Empty] && afterUpload.fileName == file.filename
    ensures screen == ResetView
    ensures sent == [CleanupAll, Upload(file.filename, sessionId), Clear(sessionId)]
  {
    var page := new Page(sessionId);
    page.UploadFile(Some(file.filename), Ok(file), now);
    afterUpload := page.Screen();
    page.ClearHistory(true, Ok(message));
    screen, sent := page.Screen(), page.requests;
  }
}
