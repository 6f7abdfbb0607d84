/**
 * The object streams of the client's socket, seen as values: the outgoing stream is a log of
 * every value written, the incoming stream a queue of the values the server sends on this
 * connection before it closes its side.
 */
module Wire {
  import opened Wrappers
  import opened Decimal

  /** The three kinds of object that travel on the streams: `Integer`, `String`, `LinkedList<String>`. */
  datatype Value = IntV(n: Int32) | StrV(s: string) | ListV(items: seq<string>)

  /** The elements of a list separated by ", ", as `AbstractCollection.toString` writes them. */
  function JoinComma(xs: seq<string>): string
  {
    if xs == [] then ""
    else if |xs| == 1 then xs[0]
    else xs[0] + ", " + JoinComma(xs[1..])
  }

  /** Java's `toString()` of a received object. */
  function Show(v: Value): string
  {
    match v
    case IntV(n) => IntToString(n)
    case StrV(s) => s
    case ListV(items) => "[" + JoinComma(items) + "]"
  }

  /**
   * The socket container: what the client has written, what the server has sent and the client
   * has not read yet, and whether the socket has been closed.
   */
  datatype Channel = Channel(outgoing: seq<Value>, incoming: seq<Value>, closed: bool)

  /**
   * `writeObject` of each value in turn. On a closed socket each write throws an `IOException`
   * that the caller swallows, so nothing is sent.
   */
  function Write(c: Channel, vs: seq<Value>): Channel
  {
    if c.closed then c else c.(outgoing := c.outgoing + vs)
  }

  /**
   * `readObject`: the first value the server sent and the queue without it. On a closed socket,
   * or once every value the server sent has been read (end of stream), it throws an `IOException`;
   * `None` stands for the `null` its caller returns then, and nothing is consumed.
   */
  function Read(c: Channel): (Channel, Option<Value>)
  {
    if c.closed || c.incoming == [] then (c, None)
    else (c.(incoming := c.incoming[1..]), Some(c.incoming[0]))
  }

  /** The `toString()` of what `Read` returned, or `null`. */
  function ShowRead(v: Option<Value>): Option<string>
  {
    if v.Some? then Some(Show(v.value)) else None
  }

  /**
   * One request/reply exchange on an open channel whose server has sent a reply: the request is
   * appended to the outgoing log in order, exactly the first incoming value is consumed and it is
   * the one returned; nothing else changes.
   */
  lemma {:induction false} ExchangeAccounting(c: Channel, request: seq<Value>)
    requires !c.closed && c.incoming != []
    ensures Read(Write(c, request)).0 == Channel(c.outgoing + request, c.incoming[1..], false)
    ensures Read(Write(c, request)).1 == Some(c.incoming[0])
  {
  }

  /** A closed channel is left exactly as it was by any exchange, and the reply is `null`. */
  lemma {:induction false} ClosedExchange(c: Channel, request: seq<Value>)
    requires c.closed
    ensures Read(Write(c, request)) == (c, None)
  {
  }

  /** The string form of an integer reply reads back as the same integer. */
  lemma IntReplyRoundTrip(n: Int32)
    ensures ParseInt(Show(IntV(n))) == Some(n)
  {
    ParseIntOfToString(n);
  }
}
