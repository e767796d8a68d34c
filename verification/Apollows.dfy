/** Vocabulary shared by both websocket dialects: message types, close codes and the values
    that travel through the outgoing channel. */
module Apollows {

  /** GraphqlWs is `graphql-ws`, GraphqlTransportWs is `graphql-transport-ws`. */
  datatype Dialect = GraphqlWs | GraphqlTransportWs

  const CLOSE_NORMAL: nat := 1000
  const INVALID_MESSAGE: nat := 4400
  const UNAUTHORIZED: nat := 4401
  const INITIALIZATION_TIMEOUT: nat := 4408
  const SUBSCRIBER_ALREADY_EXISTS: nat := 4409
  const TOO_MANY_INITIALIZATION_REQUESTS: nat := 4429

  /** One element of an operation's result stream. */
  datatype Outcome = Outcome(value: int, errors: bool)

  /** Types of server messages; Data and Next carry the result they report. */
  datatype Kind =
    | ConnectionAck
    | ConnectionError
    | Data(result: Outcome)
    | Next(result: Outcome)
    | Error
    | Complete
    | Pong

  /** What the outgoing channel carries: a message, or a directive to close the socket. */
  datatype Item = Message(id: string, kind: Kind) | CloseWith(code: nat)

  /** An error value as `handleError` sees it: a protocol error with its close code, or any other. */
  datatype Failure = NoFailure | Protocol(code: nat) | Ordinary

  predicate IsResult(kind: Kind) {
    kind.Data? || kind.Next?
  }

  /** The kinds of the messages among `items`, in order. */
  function Kinds(items: seq<Item>): seq<Kind> {
    if items == [] then []
    else
      var last := items[|items| - 1];
      Kinds(items[..|items| - 1]) + (if last.Message? then [last.kind] else [])
  }

  /** The results reported by a word of message kinds, in order. */
  function Payloads(word: seq<Kind>): seq<Outcome> {
    if word == [] then []
    else
      var last := word[|word| - 1];
      Payloads(word[..|word| - 1]) + (if IsResult(last) then [last.result] else [])
  }

  lemma KindsAppend(items: seq<Item>, item: Item)
    ensures Kinds(items + [item]) == Kinds(items) + (if item.Message? then [item.kind] else [])
  {
    assert (items + [item])[..|items|] == items;
  }

  lemma PayloadsAppend(word: seq<Kind>, kind: Kind)
    ensures Payloads(word + [kind]) == Payloads(word) + (if IsResult(kind) then [kind.result] else [])
  {
    assert (word + [kind])[..|word|] == word;
  }

  /** Enqueuing an item adds its result, if it reports one. */
  lemma PayloadsSent(items: seq<Item>, item: Item)
    ensures Payloads(Kinds(items + [item]))
         == Payloads(Kinds(items)) + (if item.Message? && IsResult(item.kind) then [item.kind.result] else [])
  {
    KindsAppend(items, item);
    if item.Message? {
      PayloadsAppend(Kinds(items), item.kind);
    } else {
      assert Kinds(items) + [] == Kinds(items);
    }
  }
}
