/**
  The `limit_body_size` middleware of app/main.py: drain the request body up front, refuse
  it if it is too large, else hand the handler a stream that replays what was drained.
 */
module BodyReplay {
  import opened Common

  type Bytes = seq<bv8>

  /** An ASGI message: a body chunk, or anything else (a disconnect). */
  datatype Message = Chunk(body: Bytes, more: bool) | Other(kind: string)

  const MAX_BODY_SIZE := 1_048_576

  /** The Content-Length header: absent or empty, not a number, or a number. */
  datatype Length = NoLength | Malformed | Length(n: int)

  function BodyOf(m: Message): Bytes {
    if m.Chunk? then m.body else []
  }

  /** The bytes of all chunks together. */
  function Body(messages: seq<Message>): Bytes {
    if messages == [] then [] else Body(messages[..|messages| - 1]) + BodyOf(messages[|messages| - 1])
  }

  /** The messages before `p` all announce more body. */
  predicate OpenBefore(stream: seq<Message>, p: nat) {
    p <= |stream| && forall j :: 0 <= j < p ==> stream[j].Chunk? && stream[j].more
  }

  /** The body ends at message `p`. */
  predicate EndsAt(stream: seq<Message>, p: nat) {
    p < |stream| && OpenBefore(stream, p) && !(stream[p].Chunk? && stream[p].more)
  }

  /** The chunk at `p` of a body that has not ended takes it over the limit. */
  predicate OverflowsAt(stream: seq<Message>, p: nat) {
    p < |stream| && OpenBefore(stream, p) && stream[p].Chunk? && |Body(stream[..p + 1])| > MAX_BODY_SIZE
  }

  /** The server side of the connection: what has arrived, and how much of it was read. */
  class Connection {
    const stream: seq<Message>
    var pos: nat

    constructor (stream: seq<Message>)
      ensures this.stream == stream && pos == 0
    {
      this.stream, pos := stream, 0;
    }

    ghost predicate Valid()
      reads this
    {
      pos <= |stream|
    }

    /** None: nothing more has arrived, and the caller waits. */
    method Receive() returns (m: Option<Message>)
      requires Valid()
      modifies this
      ensures Valid()
      ensures if old(pos) < |stream| then m == Some(stream[old(pos)]) && pos == old(pos) + 1 else m == None && pos == old(pos)
    {
      if pos < |stream| {
        m := Some(stream[pos]);
        pos := pos + 1;
      } else {
        m := None;
      }
    }
  }

  /** The stream handed to the handler: the buffer first, then the connection. */
  class Replay {
    const buffered: seq<Message>
    const connection: Connection
    var next: nat

    constructor (buffered: seq<Message>, connection: Connection)
      ensures this.buffered == buffered && this.connection == connection && next == 0
    {
      this.buffered, this.connection, next := buffered, connection, 0;
    }

    ghost predicate Valid()
      reads this, connection
    {
      next <= |buffered| && connection.Valid()
    }

    /** All that the handler has still to receive. */
    ghost function Remaining(): seq<Message>
      reads this, connection
      requires Valid()
    {
      buffered[next..] + connection.stream[connection.pos..]
    }

    method Receive() returns (m: Option<Message>)
      requires Valid()
      modifies this, connection
      ensures Valid()
      ensures if old(Remaining()) == [] then m == None && Remaining() == []
              else m == Some(old(Remaining())[0]) && Remaining() == old(Remaining())[1..]
    {
      if next < |buffered| {
        m := Some(buffered[next]);
        next := next + 1;
      } else {
        m := connection.Receive();
      }
    }

    /** A handler that reads `n` messages reads the first `n` that remain. */
    method Read(n: nat) returns (messages: seq<Message>)
      requires Valid() && n <= |Remaining()|
      modifies this, connection
      ensures Valid() && messages == old(Remaining())[..n] && Remaining() == old(Remaining())[n..]
    {
      ghost var all := Remaining();
      messages := [];
      for i := 0 to n
        invariant Valid() && messages == all[..i] && Remaining() == all[i..]
      {
        var m := Receive();
        messages := messages + [m.value];
      }
    }
  }

  datatype Outcome = Rejected(status: nat) | Waiting | Called(replay: Replay)

  predicate LengthAccepted(length: Length) {
    length.NoLength? || (length.Length? && length.n <= MAX_BODY_SIZE)
  }

  lemma NoBody()
    ensures Body([]) == []
  {
  }

  lemma BodyGrows(stream: seq<Message>, i: nat)
    requires i < |stream|
    ensures Body(stream[..i + 1]) == Body(stream[..i]) + BodyOf(stream[i])
  {
    assert stream[..i + 1][..i] == stream[..i];
  }

  lemma {:induction false} BodyMonotone(stream: seq<Message>, i: nat, j: nat)
    requires i <= j <= |stream|
    ensures |Body(stream[..i])| <= |Body(stream[..j])|
    decreases j
  {
    hide Body;
    if i < j {
      BodyMonotone(stream, i, j - 1);
      BodyGrows(stream, j - 1);
    }
  }

  ghost predicate Fits(stream: seq<Message>) {
    exists p :: EndsAt(stream, p) && |Body(stream[..p + 1])| <= MAX_BODY_SIZE
  }

  ghost predicate Overflows(stream: seq<Message>) {
    exists p :: OverflowsAt(stream, p)
  }

  /** Drained up to `p` without a verdict, what message `p` decides, if there is one. */
  lemma Decides(stream: seq<Message>, p: nat)
    requires OpenBefore(stream, p) && |Body(stream[..p])| <= MAX_BODY_SIZE
    ensures p == |stream| ==> !Fits(stream) && !Overflows(stream)
    ensures OverflowsAt(stream, p) ==> Overflows(stream) && !Fits(stream)
    ensures EndsAt(stream, p) && |Body(stream[..p + 1])| <= MAX_BODY_SIZE ==> Fits(stream) && !Overflows(stream)
  {
    hide Body;
    forall q: nat | OverflowsAt(stream, q) ensures q >= p {
      if q < p {
        BodyMonotone(stream, q + 1, p);
      }
    }
    forall q: nat | OverflowsAt(stream, p) && EndsAt(stream, q) ensures |Body(stream[..q + 1])| > MAX_BODY_SIZE {
      BodyMonotone(stream, p + 1, q + 1);
    }
  }

  /**
    Whatever Content-Length says: the handler is called exactly when the body ends within
    the limit, it then receives the original stream in order, and what was buffered is
    within the limit; a too large body is refused before the handler is called.
   */
  method LimitBodySize(length: Length, connection: Connection) returns (outcome: Outcome)
    requires connection.pos == 0
    modifies connection
    ensures connection.Valid()
    ensures !LengthAccepted(length) ==> outcome == Rejected(if length.Malformed? then 400 else 413) && connection.pos == 0
    ensures LengthAccepted(length) ==>
              && (outcome.Called? <==> Fits(connection.stream))
              && (outcome.Rejected? <==> Overflows(connection.stream))
              && (outcome.Rejected? ==> outcome.status == 413)
    ensures outcome.Called? ==>
              && fresh(outcome.replay) && outcome.replay.connection == connection && outcome.replay.Valid()
              && outcome.replay.Remaining() == connection.stream
              && |Body(outcome.replay.buffered)| <= MAX_BODY_SIZE
  {
    hide Fits, Overflows, Body;
    NoBody();
    match length {
      case Malformed => return Rejected(400);
      case Length(n) =>
        if n > MAX_BODY_SIZE {
          return Rejected(413);
        }
      case NoLength =>
    }
    var buffered: seq<Message>, received := [], 0;
    ghost var stream := connection.stream;
    while true
      invariant connection.Valid() && connection.stream == stream && buffered == stream[..connection.pos]
      invariant OpenBefore(stream, connection.pos)
      invariant received == |Body(buffered)| <= MAX_BODY_SIZE
      decreases |stream| - connection.pos
    {
      ghost var p := connection.pos;
      if p < |stream| {
        BodyGrows(stream, p);
        assert stream[..p + 1] == buffered + [stream[p]];
      }
      Decides(stream, p);
      var m := connection.Receive();
      if m.None? {
        return Waiting;
      }
      var message := m.value;
      if message.Other? {
        buffered := buffered + [message];
        break;
      }
      received := received + |message.body|;
      if received > MAX_BODY_SIZE {
        return Rejected(413);
      }
      buffered := buffered + [message];
      if !message.more {
        break;
      }
    }
    var replay := new Replay(buffered, connection);
    outcome := Called(replay);
  }
}
