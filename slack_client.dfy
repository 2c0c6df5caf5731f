/**
 * The Slack Web API client as the event handler uses it: three calls
 * (`conversations.history`, `chat.postMessage`, `chat.update`), each
 * recorded in the client's call log in the order it is made.
 *
 * What the Slack workspace answers is the function `respond`, given the whole
 * log up to and including the call being answered; a `Failed` answer is a
 * rejected promise.
 */
module SlackClient {
  import opened Wrappers

  /** A message returned by `conversations.history`; only its text is read. */
  datatype SlackMessage = SlackMessage(text: Option<string>)

  /** An outbound Web API call with the arguments the handler passes. */
  datatype Call =
    | History(channel: string, latest: string)
    | Post(channel: string, threadTs: string, text: string)
    | Update(channel: string, ts: Option<string>, text: string)

  /** A call's settled promise: rejected, or resolved with the fields the handler reads. */
  datatype Reply =
    | Failed(error: string)
    | Answered(messages: Option<seq<SlackMessage>>, ts: Option<string>)

  class WebClient {
    /** The workspace's answer to the last call of a log. */
    const respond: seq<Call> -> Reply
    /** Every call made through this client, oldest first. */
    var calls: seq<Call>

    /** `new WebClient(token)`: no call made yet. */
    constructor(respond: seq<Call> -> Reply)
      ensures this.respond == respond
      ensures calls == []
    {
      this.respond := respond;
      calls := [];
    }

    /** `slack.conversations.history({channel, latest, limit: 1, inclusive: true})`. */
    method ConversationsHistory(channel: string, latest: string) returns (reply: Reply)
      modifies this
      ensures calls == old(calls) + [History(channel, latest)]
      ensures reply == respond(calls)
    {
      calls := calls + [History(channel, latest)];
      reply := respond(calls);
    }

    /** `slack.chat.postMessage({channel, thread_ts, text})`. */
    method PostMessage(channel: string, threadTs: string, text: string) returns (reply: Reply)
      modifies this
      ensures calls == old(calls) + [Post(channel, threadTs, text)]
      ensures reply == respond(calls)
    {
      calls := calls + [Post(channel, threadTs, text)];
      reply := respond(calls);
    }

    /** `slack.chat.update({channel, ts, text})`. */
    method ChatUpdate(channel: string, ts: Option<string>, text: string) returns (reply: Reply)
      modifies this
      ensures calls == old(calls) + [Update(channel, ts, text)]
      ensures reply == respond(calls)
    {
      calls := calls + [Update(channel, ts, text)];
      reply := respond(calls);
    }
  }
}
