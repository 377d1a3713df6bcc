/** The message container both variants render into, and the two ends of the
    network exchange. The container is the sequence of its children: message
    rows and at most one typing indicator, in document order. */
module Chat {
  import opened Wrappers
  import opened Json

  datatype Role = User | Bot

  /** One rendered message. The content is the value passed to `addMsg`:
      a string for user input, but a bot reply may be any truthy JSON value,
      which the page shows through `String(...)`. */
  datatype Message = Message(role: Role, content: Value)

  /** A child of the message container. */
  datatype Node = Row(msg: Message) | TypingNode

  /** The POST the widget issues: `{ chatInput, sessionId }` to the webhook. */
  datatype Request = Request(url: string, chatInput: string, sessionId: string)

  /** How a request ended: `fetch` resolved and `res.json()` gave a value
      (None when decoding failed), or `fetch` rejected. */
  datatype Completion = Replied(data: Option<Value>) | Failed

  /** The message log: the rows of the container, in order. */
  function Messages(body: seq<Node>): seq<Message> {
    if body == [] then []
    else (if body[0].Row? then [body[0].msg] else []) + Messages(body[1..])
  }

  /** How many typing indicators the container holds. */
  function TypingCount(body: seq<Node>): nat {
    if body == [] then 0
    else (if body[0].TypingNode? then 1 else 0) + TypingCount(body[1..])
  }

  /** `addMsg(role, content)`: a new row at the end. */
  function AddRow(body: seq<Node>, role: Role, content: Value): seq<Node> {
    body + [Row(Message(role, content))]
  }

  /** The first typing indicator removed (the one `querySelector` finds). */
  function RemoveFirstTyping(body: seq<Node>): seq<Node> {
    if body == [] then []
    else if body[0].TypingNode? then body[1..]
    else [body[0]] + RemoveFirstTyping(body[1..])
  }

  /** `setTyping(on)`: on adds an indicator at the end only when there is
      none; off removes the existing one, if any. */
  function SetTyping(body: seq<Node>, on: bool): seq<Node> {
    if on then (if TypingCount(body) == 0 then body + [TypingNode] else body)
    else (if TypingCount(body) == 0 then body else RemoveFirstTyping(body))
  }

  // ---------------------------------------------------------------------
  // Lemmas

  lemma {:induction false} MessagesAppend(a: seq<Node>, b: seq<Node>)
    ensures Messages(a + b) == Messages(a) + Messages(b)
  {
    if a == [] {
      assert a + b == b;
    } else {
      var head := if a[0].Row? then [a[0].msg] else [];
      assert (a + b)[0] == a[0];
      assert (a + b)[1..] == a[1..] + b;
      MessagesAppend(a[1..], b);
      assert Messages(a + b) == head + (Messages(a[1..]) + Messages(b));
    }
  }

  lemma {:induction false} TypingCountAppend(a: seq<Node>, b: seq<Node>)
    ensures TypingCount(a + b) == TypingCount(a) + TypingCount(b)
  {
    if a == [] {
      assert a + b == b;
    } else {
      assert (a + b)[0] == a[0];
      assert (a + b)[1..] == a[1..] + b;
      TypingCountAppend(a[1..], b);
    }
  }

  /** A new row extends the log by exactly that message and leaves the
      indicator alone. */
  lemma AddRowAppends(body: seq<Node>, role: Role, content: Value)
    ensures Messages(AddRow(body, role, content)) == Messages(body) + [Message(role, content)]
    ensures TypingCount(AddRow(body, role, content)) == TypingCount(body)
  {
    MessagesAppend(body, [Row(Message(role, content))]);
    TypingCountAppend(body, [Row(Message(role, content))]);
  }

  lemma {:induction false} RemoveFirstTypingKeepsMessages(body: seq<Node>)
    requires TypingCount(body) > 0
    ensures Messages(RemoveFirstTyping(body)) == Messages(body)
    ensures TypingCount(RemoveFirstTyping(body)) == TypingCount(body) - 1
  {
    if !body[0].TypingNode? {
      RemoveFirstTypingKeepsMessages(body[1..]);
      MessagesAppend([body[0]], RemoveFirstTyping(body[1..]));
      TypingCountAppend([body[0]], RemoveFirstTyping(body[1..]));
    }
  }

  /** Showing the indicator, however often, leaves exactly one, and never
      touches the log. */
  lemma SetTypingOn(body: seq<Node>)
    requires TypingCount(body) <= 1
    ensures TypingCount(SetTyping(body, true)) == 1
    ensures Messages(SetTyping(body, true)) == Messages(body)
    ensures SetTyping(SetTyping(body, true), true) == SetTyping(body, true)
  {
    MessagesAppend(body, [TypingNode]);
    TypingCountAppend(body, [TypingNode]);
  }

  /** Hiding the indicator removes it, is a no-op when there is none, and
      never touches the log. */
  lemma SetTypingOff(body: seq<Node>)
    requires TypingCount(body) <= 1
    ensures TypingCount(SetTyping(body, false)) == 0
    ensures Messages(SetTyping(body, false)) == Messages(body)
    ensures TypingCount(body) == 0 ==> SetTyping(body, false) == body
  {
    if TypingCount(body) > 0 {
      RemoveFirstTypingKeepsMessages(body);
    }
  }
}
