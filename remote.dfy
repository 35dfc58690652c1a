/** The two wire calls of the library and a scripted stand-in for the HTTP
    client and the server behind it. The server follows a fixed script: the
    i-th request it ever receives gets the script's i-th reply, and once the
    script is exhausted every further call fails as a transport error
    would. */
module Remote {
  import opened Values

  /** POST /api/get-key with body {"unique_id": uniqueId}, or
      POST /api/send-data with the given JSON body. */
  datatype Request = GetKey(uniqueId: string) | SendData(body: Record)

  /** What a call produced: an exception (I/O error, refused connection), or
      an HTTP status together with what optString("api_key") yields on the
      response body (None when the body is missing, malformed or has no such
      field). */
  datatype Reply = TransportFailure | Response(code: int, apiKey: Option<string>)

  /** OkHttp's Response.isSuccessful: the status is in 200..299. */
  predicate IsSuccessful(reply: Reply)
  {
    reply.Response? && 200 <= reply.code <= 299
  }

  /** The reply the script gives to the i-th request (counting from 0). */
  function ReplyAt(replies: seq<Reply>, i: nat): Reply
  {
    if i < |replies| then replies[i] else TransportFailure
  }

  class RemoteServer {
    /** The scripted replies, in the order the requests arrive. */
    const replies: seq<Reply>
    /** Every request received so far, in order. */
    var log: seq<Request>

    constructor (replies: seq<Reply>)
      ensures this.replies == replies && log == []
    {
      this.replies := replies;
      log := [];
    }

    /** client.newCall(request).execute(): one attempt, no retry. */
    method Execute(request: Request) returns (reply: Reply)
      modifies this
      ensures log == old(log) + [request]
      ensures reply == ReplyAt(replies, |old(log)|)
    {
      reply := ReplyAt(replies, |log|);
      log := log + [request];
    }
  }
}
