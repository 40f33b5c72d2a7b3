/** The analysis gate of src/ai_worker.py: an enabled flag switched by
    `alert` and `clear`, a rolling history of at most ten messages, and the
    handling of a `new_messages` batch. The chat-completion call and the
    JSON decoding of its answer are one input: a function from the request
    to the decoded reply, or to a failure. Publishing is modelled by
    returning the (topic, verdict) pairs published. */
module AiWorker {
  import opened Common
  import opened Values
  import opened Telegram

  /** The `maxlen` of the history deque. */
  const HistoryCapacity: nat := 10

  /** The classifier's verdict. The fields hold whatever the decoded reply
      held, since nothing checks their types. */
  datatype AiAlert = AiAlert(alert: Value, attacker: Value, text: Value, confidence: Value, originalText: Value)

  /** `AiAlert.from_dict`: each field from its key in the reply, or its
      default when the key is missing. Both `text` and `originalText` come
      from the `trigger` key, with different defaults. */
  function AiAlertFromDict(data: map<string, Value>): (a: AiAlert)
    ensures a.alert == (if "alert" in data then data["alert"] else Null)
    ensures "attacker" in data ==> a.attacker == data["attacker"]
    ensures "attacker" !in data ==> a.attacker == Str("UNKNOWN")
    ensures "trigger" in data ==> a.text == data["trigger"] && a.originalText == data["trigger"]
    ensures "trigger" !in data ==> a.text == Str("<No text>") && a.originalText == Str("<No original text>")
    ensures "risk" in data ==> a.confidence == data["risk"]
    ensures "risk" !in data ==> a.confidence == Real(0.0)
  {
    AiAlert(
      Get(data, "alert", Null),
      Get(data, "attacker", Str("UNKNOWN")),
      Get(data, "trigger", Str("<No text>")),
      Get(data, "risk", Real(0.0)),
      Get(data, "trigger", Str("<No original text>")))
  }

  /** The last `n` elements of `s`, which is what a deque with `maxlen=n`
      holds after `s` was appended to it element by element. */
  function Window<T>(s: seq<T>, n: nat): (r: seq<T>)
    ensures |r| == Min(n, |s|)
    ensures r == s[|s| - |r|..]
  {
    if |s| <= n then s else s[|s| - n..]
  }

  /** Appending to a full-or-not window and trimming it again gives the
      window of the longer sequence: the deque can be updated one message
      at a time. */
  lemma WindowAppend<T>(s: seq<T>, x: T, n: nat)
    ensures Window(Window(s, n) + [x], n) == Window(s + [x], n)
  {
  }

  /** One entry of the chat request. The rendering of dates in the target
      time zone is not modelled: a line carries the message it shows. */
  datatype ChatMessage =
    | SystemPrompt(content: string)
    | HistoryLine(message: Message)
    | NewLine(message: Message)
    | LocalTime(now: int)

  /** The request sent for a batch: the system prompt, one `HISTORY` line
      per message already in the history, one `NEW` line per message of the
      batch, then the current local time. */
  function Request(prompt: string, history: seq<Message>, batch: seq<Message>, now: int): (r: seq<ChatMessage>)
    ensures |r| == |history| + |batch| + 2
    ensures r[0] == SystemPrompt(prompt) && r[|r| - 1] == LocalTime(now)
    ensures forall i :: 0 <= i < |history| ==> r[1 + i] == HistoryLine(history[i])
    ensures forall i :: 0 <= i < |batch| ==> r[1 + |history| + i] == NewLine(batch[i])
  {
    [SystemPrompt(prompt)]
      + seq(|history|, i requires 0 <= i < |history| => HistoryLine(history[i]))
      + seq(|batch|, i requires 0 <= i < |batch| => NewLine(batch[i]))
      + [LocalTime(now)]
  }

  /** What comes back from the classifier: the decoded JSON content of the
      answer, or a failure of the call or of the decoding. */
  datatype Reply = Decoded(content: Value) | Failed

  /** The events published for a reply: `ai_alert` with the verdict when the
      reply decodes to an object whose `alert` entry is truthy; nothing on a
      failure, on a reply that is not an object (`.get` raises) or on a
      falsy or missing `alert`. */
  function Verdict(reply: Reply): (events: seq<(string, AiAlert)>)
    ensures |events| <= 1
    ensures events != [] <==>
              reply.Decoded? && reply.content.Dict? && "alert" in reply.content.entries
              && Truthy(reply.content.entries["alert"])
    ensures events != [] ==> events[0] == ("ai_alert", AiAlertFromDict(reply.content.entries))
  {
    match reply
    case Failed => []
    case Decoded(content) =>
      if content.Dict? then
        var verdict := AiAlertFromDict(content.entries);
        if Truthy(verdict.alert) then [("ai_alert", verdict)] else []
      else []
  }

  class AiWorker {
    const systemPrompt: string
    /** the most recent messages, oldest first */
    var history: seq<Message>
    var aiEnabled: bool

    ghost predicate Valid()
      reads this
    {
      |history| <= HistoryCapacity
    }

    constructor (systemPrompt: string)
      ensures Valid() && this.systemPrompt == systemPrompt
      ensures history == [] && !aiEnabled
    {
      this.systemPrompt := systemPrompt;
      history := [];
      aiEnabled := false;
    }

    /** On `alert`: the history is emptied and analysis is enabled, also
        when it already was. */
    method ProcessAlertEvent()
      modifies this
      ensures Valid() && history == [] && aiEnabled
    {
      history := [];
      aiEnabled := true;
    }

    /** On `clear`: the history is emptied and analysis is disabled. */
    method ProcessClearEvent()
      modifies this
      ensures Valid() && history == [] && !aiEnabled
    {
      history := [];
      aiEnabled := false;
    }

    /** Appends one message to the history deque, dropping the oldest
        message when it is full. */
    method Append(message: Message)
      requires Valid()
      modifies this
      ensures Valid() && aiEnabled == old(aiEnabled)
      ensures history == Window(old(history) + [message], HistoryCapacity)
    {
      if |history| == HistoryCapacity {
        history := history[1..] + [message];
      } else {
        history := history + [message];
      }
    }

    /** Handles a `new_messages` batch. While disabled nothing happens.
        While enabled the request is built from the history as it was, the
        batch is appended to the history, and only then is the classifier
        asked; its failure leaves the appended history in place and
        publishes nothing. */
    method ProcessMessages(messages: seq<Message>, classify: seq<ChatMessage> -> Reply, now: int)
      returns (request: Option<seq<ChatMessage>>, published: seq<(string, AiAlert)>)
      requires Valid()
      modifies this
      ensures Valid() && aiEnabled == old(aiEnabled)
      ensures !old(aiEnabled) ==> history == old(history) && request == None && published == []
      ensures old(aiEnabled) ==>
                && history == Window(old(history) + messages, HistoryCapacity)
                && request == Some(Request(systemPrompt, old(history), messages, now))
                && published == Verdict(classify(request.value))
    {
      if !aiEnabled {
        return None, [];
      }
      var lines := Request(systemPrompt, history, messages, now);
      ghost var start := history;
      var i := 0;
      while i < |messages|
        invariant 0 <= i <= |messages|
        invariant Valid() && aiEnabled
        invariant history == Window(start + messages[..i], HistoryCapacity)
      {
        ghost var sofar := start + messages[..i];
        assert start + messages[..i + 1] == sofar + [messages[i]];
        WindowAppend(sofar, messages[i], HistoryCapacity);
        Append(messages[i]);
        i := i + 1;
      }
      assert start + messages[..i] == start + messages;
      request := Some(lines);
      published := Verdict(classify(lines));
    }
  }
}
