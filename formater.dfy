/** Conversion of a session's history into the provider's role/content
    pairs, and of one message into an outbound event record (formater.py). */
module Formater {
  import opened Wrappers
  import opened Manager

  /** The window size LLMMessageFormater uses when none is given. */
  const DefaultHistoryLimit := 20

  /** One entry of a provider request: the role and content of a message, nothing else. */
  datatype LLMMessage = LLMMessage(role: Role, content: Option<string>)

  function Project(m: CompletionMessage): LLMMessage {
    LLMMessage(m.role, m.content)
  }

  function Min(a: int, b: int): int {
    if a <= b then a else b
  }

  /** Where Python's slice `messages[-limit:]` starts in a list of length n. */
  function TailStart(n: nat, limit: int): (start: nat)
    ensures start <= n
  {
    var i := -limit;
    if i < 0 then (if n + i < 0 then 0 else n + i)
    else (if i > n then n else i)
  }

  /** Each message projected to its role and content, in order. */
  function Projected(ms: seq<CompletionMessage>): (r: seq<LLMMessage>)
    ensures |r| == |ms|
    ensures forall k :: 0 <= k < |ms| ==> r[k] == Project(ms[k])
  {
    if ms == [] then [] else Projected(ms[..|ms| - 1]) + [Project(ms[|ms| - 1])]
  }

  /** LLMMessageFormater.format: the trailing window of the history, projected.
      A positive limit keeps the last min(H, limit) messages; as with Python's
      slicing, a zero limit keeps them all and a negative one drops a prefix. */
  function LLMFormat(messages: seq<CompletionMessage>, limit: int): (r: seq<LLMMessage>)
    ensures limit > 0 ==> |r| == Min(|messages|, limit)
    ensures limit == 0 ==> |r| == |messages|
    ensures limit < 0 ==> |r| == |messages| - Min(|messages|, -limit)
    ensures forall k :: 0 <= k < |r| ==> r[k] == Project(messages[|messages| - |r| + k])
  {
    if messages == [] then []
    else Projected(messages[TailStart(|messages|, limit)..])
  }

  /** The same formatting as the source writes it: slice, then append one
      entry per message in a loop. */
  method FormatHistory(messages: seq<CompletionMessage>, limit: int) returns (llmMessages: seq<LLMMessage>)
    ensures llmMessages == LLMFormat(messages, limit)
  {
    llmMessages := [];
    if messages != [] {
      var window := messages[TailStart(|messages|, limit)..];
      for i := 0 to |window|
        invariant llmMessages == Projected(window[..i])
      {
        assert window[..i + 1][..i] == window[..i];
        llmMessages := llmMessages + [Project(window[i])];
      }
      assert window[..|window|] == window;
    }
  }

  /** A positive window never drops the newest message: it is the last entry. */
  lemma NewestMessageKept(messages: seq<CompletionMessage>, limit: int)
    requires limit > 0 && messages != []
    ensures LLMFormat(messages, limit) != []
    ensures LLMFormat(messages, limit)[|LLMFormat(messages, limit)| - 1] == Project(messages[|messages| - 1])
  {
  }

  /** The wire record RespMessageFormater.format builds; the caller adds a status. */
  datatype Resp = Resp(sessionId: string, messageId: string, message: Option<string>, timestamp: int)

  function RespFormat(sessionId: string, m: CompletionMessage): Resp {
    Resp(sessionId, m.id, m.content, m.timestamp)
  }

  /** The record keeps the session id and the message's id, content and
      timestamp, and drops exactly its role and name. */
  lemma RespFormatKeeps(sid: string, m: CompletionMessage, sid': string, m': CompletionMessage)
    ensures RespFormat(sid, m) == RespFormat(sid', m') <==>
      sid == sid' && m.id == m'.id && m.content == m'.content && m.timestamp == m'.timestamp
  {
  }
}
