/**
 * The transports that move raw JSON-RPC text between the server and its one
 * peer: standard input/output, one message per line, and a WebSocket
 * listener whose current connection's writer is shared with the sending
 * side. The reading side pushes every message it reads into the queue that
 * feeds the dispatch loop.
 */
module Transport {
  import opened Wrappers

  // ------------------------------------------------------------------ queue

  /**
   * The channel between the reading task and the dispatch loop: the messages
   * it has carried, in order, and how many more the receiving side takes
   * before it hangs up (a send after that fails).
   */
  class Queue {
    var items: seq<string>
    var remaining: nat

    constructor (remaining: nat)
      ensures items == [] && this.remaining == remaining
    {
      items := [];
      this.remaining := remaining;
    }

    /** `request_tx.send`: appends the message, or fails and changes nothing once the receiver is gone. */
    method Send(message: string) returns (ok: bool)
      modifies this
      ensures ok <==> old(remaining) > 0
      ensures ok ==> items == old(items) + [message] && remaining == old(remaining) - 1
      ensures !ok ==> items == old(items) && remaining == old(remaining)
    {
      if remaining == 0 {
        return false;
      }
      items := items + [message];
      remaining := remaining - 1;
      return true;
    }
  }

  /** The first `n` messages, or all of them when there are fewer. */
  function Prefix(messages: seq<string>, n: nat): (r: seq<string>)
    ensures |r| == if n < |messages| then n else |messages|
    ensures r == messages[..|r|]
  {
    if n < |messages| then messages[..n] else messages
  }

  /** Offering `m` and then the rest to a receiver that takes `n` more is taking `m` and then `n - 1` more. */
  lemma PrefixCons(m: string, rest: seq<string>, n: nat)
    requires n > 0
    ensures Prefix([m] + rest, n) == [m] + Prefix(rest, n - 1)
  {
    if n - 1 < |rest| {
      assert ([m] + rest)[..n] == [m] + rest[..n - 1];
    }
  }

  // ------------------------------------------------------------------ stdio

  /** What reading one line from standard input gives. */
  datatype LineRead = Line(text: string) | Eof | ReadError

  /** The lines read before the end of input or the first read error. */
  function LinesBeforeStop(input: seq<LineRead>): (r: seq<string>)
    ensures |r| <= |input|
  {
    if input == [] || !input[0].Line? then [] else [input[0].text] + LinesBeforeStop(input[1..])
  }

  /** The lines read before the stop are the texts of the leading line reads, and the read right after them is not a line. */
  lemma {:induction false} LinesBeforeStopSpec(input: seq<LineRead>)
    ensures var lines := LinesBeforeStop(input);
            && (forall j :: 0 <= j < |lines| ==> input[j].Line? && lines[j] == input[j].text)
            && (|lines| < |input| ==> !input[|lines|].Line?)
  {
    if input != [] && input[0].Line? {
      LinesBeforeStopSpec(input[1..]);
    }
  }

  /** One response as it appears on standard output: nothing for an empty response, otherwise the response and one newline. */
  function Framed(response: string): (out: string)
    ensures response == [] ==> out == []
    ensures response != [] ==> |out| == |response| + 1 && out[..|response|] == response && out[|response|] == '\n'
  {
    if response == [] then [] else response + "\n"
  }

  /** Everything written for a sequence of responses, in order. */
  function FrameAll(responses: seq<string>): string {
    if responses == [] then [] else Framed(responses[0]) + FrameAll(responses[1..])
  }

  lemma {:induction false} FrameAllAppend(responses: seq<string>, response: string)
    ensures FrameAll(responses + [response]) == FrameAll(responses) + Framed(response)
  {
    if responses == [] {
      assert responses + [response] == [response];
    } else {
      assert (responses + [response])[1..] == responses[1..] + [response];
      FrameAllAppend(responses[1..], response);
    }
  }

  /** The non-empty responses, in order. */
  function NonEmpty(responses: seq<string>): (r: seq<string>)
    ensures |r| <= |responses|
    ensures forall s :: s in r <==> s in responses && s != []
  {
    if responses == [] then []
    else
      assert responses == [responses[0]] + responses[1..];
      (if responses[0] != [] then [responses[0]] else []) + NonEmpty(responses[1..])
  }

  lemma {:induction false} NonEmptyAppend(responses: seq<string>, response: string)
    ensures NonEmpty(responses + [response]) == NonEmpty(responses) + (if response != [] then [response] else [])
  {
    if responses == [] {
      assert responses + [response] == [response];
    } else {
      assert (responses + [response])[1..] == responses[1..] + [response];
      NonEmptyAppend(responses[1..], response);
    }
  }

  /** The offset of the first newline, or the length when there is none. */
  function LineEnd(s: string): (n: nat)
    ensures n <= |s|
    ensures n < |s| ==> s[n] == '\n'
    ensures forall i :: 0 <= i < n ==> s[i] != '\n'
  {
    if s == [] || s[0] == '\n' then 0 else 1 + LineEnd(s[1..])
  }

  /** How a peer reads standard output: the newline-terminated lines, then any unterminated rest. */
  function SplitLines(s: string): seq<string>
    decreases |s|
  {
    if s == [] then []
    else
      var n := LineEnd(s);
      [s[..n]] + (if n < |s| then SplitLines(s[n + 1..]) else [])
  }

  predicate NoNewline(s: string) {
    forall i :: 0 <= i < |s| ==> s[i] != '\n'
  }

  /** A peer splitting standard output into lines recovers exactly the non-empty responses, in order. */
  lemma {:induction false} FramingRoundTrip(responses: seq<string>)
    requires forall i :: 0 <= i < |responses| ==> NoNewline(responses[i])
    ensures SplitLines(FrameAll(responses)) == NonEmpty(responses)
  {
    if responses != [] {
      var r := responses[0];
      var rest := FrameAll(responses[1..]);
      assert FrameAll(responses) == Framed(r) + rest;
      FramingRoundTrip(responses[1..]);
      assert NonEmpty(responses) == (if r != [] then [r] else []) + NonEmpty(responses[1..]);
      if r != [] {
        SplitFramed(r, rest);
      } else {
        assert Framed(r) + rest == rest;
      }
    }
  }

  /** A framed non-empty response is read back as one line, and the reading goes on right after its newline. */
  lemma SplitFramed(r: string, rest: string)
    requires r != [] && NoNewline(r)
    ensures SplitLines(Framed(r) + rest) == [r] + SplitLines(rest)
  {
    var s := Framed(r) + rest;
    assert s[..|r|] == r;
    assert s[|r|] == '\n';
    LineEndAt(s, |r|);
    assert s[|r| + 1..] == rest;
  }

  lemma LineEndAt(s: string, n: nat)
    requires n < |s| && s[n] == '\n'
    requires forall i :: 0 <= i < n ==> s[i] != '\n'
    ensures LineEnd(s) == n
  {
  }

  /** The standard input/output transport. `writable` says whether writing to standard output succeeds. */
  class StdioTransport {
    var stdout: string
    var writable: bool
    /** The responses written so far. */
    ghost var sent: seq<string>

    /** Standard output holds exactly the framed responses written so far, none of them empty. */
    ghost predicate Valid()
      reads this
    {
      && stdout == FrameAll(sent)
      && forall i :: 0 <= i < |sent| ==> sent[i] != []
    }

    constructor (writable: bool)
      ensures Valid() && stdout == [] && sent == [] && this.writable == writable
    {
      stdout := [];
      this.writable := writable;
      sent := [];
    }

    /**
     * `send_response`: an empty response writes nothing; any other is
     * written followed by one newline. A failed write reports an error.
     */
    method SendResponse(response: string) returns (r: Result<(), string>)
      requires Valid()
      modifies this
      ensures Valid() && writable == old(writable)
      ensures response == [] ==> r.Success? && stdout == old(stdout) && sent == old(sent)
      ensures response != [] && old(writable) ==>
        r.Success? && stdout == old(stdout) + response + "\n" && sent == old(sent) + [response]
      ensures response != [] && !old(writable) ==>
        r == Failure("Failed to write response") && stdout == old(stdout) && sent == old(sent)
    {
      if response != [] {
        if !writable {
          return Failure("Failed to write response");
        }
        FrameAllAppend(sent, response);
        stdout := stdout + response + "\n";
        sent := sent + [response];
      }
      return Success(());
    }

    /**
     * `start`: forwards each line read to the queue, in order, until the end
     * of input, a read error, or a failed send; it always ends with `Ok`.
     */
    method Start(input: seq<LineRead>, queue: Queue) returns (r: Result<(), string>)
      modifies queue
      ensures r.Success?
      ensures queue.items == old(queue.items) + Prefix(LinesBeforeStop(input), old(queue.remaining))
    {
      ghost var lines := LinesBeforeStop(input);
      LinesBeforeStopSpec(input);
      var i := 0;
      while i < |input| && input[i].Line?
        invariant 0 <= i <= |lines| && i <= old(queue.remaining)
        invariant queue.remaining == old(queue.remaining) - i
        invariant queue.items == old(queue.items) + lines[..i]
      {
        var ok := queue.Send(input[i].text);
        if !ok {
          return Success(());
        }
        assert lines[..i + 1] == lines[..i] + [input[i].text];
        i := i + 1;
      }
      return Success(());
    }
  }

  // -------------------------------------------------------------- websocket

  /** What reading from a WebSocket connection gives: a frame, or a read error. */
  datatype Frame = Text(text: string) | Binary | Ping | Pong | Close | ReadFailure

  /** An accepted TCP connection: whether its WebSocket handshake succeeds, whether sending on it succeeds, and the frames it delivers. */
  datatype Connection = Connection(handshakeOk: bool, sinkOk: bool, frames: seq<Frame>)

  /** The sending half of the connection accepted `index`-th. */
  datatype Writer = Writer(index: nat, sinkOk: bool)

  /** The state the reading side changes: the shared writer, and the queue's contents and remaining room. */
  datatype ReadState = ReadState(writer: Option<Writer>, items: seq<string>, remaining: nat)

  predicate Stops(f: Frame) {
    f.Close? || f.ReadFailure?
  }

  /**
   * Reading one connection's frames: text is forwarded; a Close frame or a
   * read error clears the writer and stops; a failed send stops with the
   * writer left in place; other frames are skipped.
   */
  function ReadFrames(s: ReadState, frames: seq<Frame>): ReadState
    decreases |frames|
  {
    if frames == [] then s
    else
      match frames[0]
      case Text(t) =>
        if s.remaining == 0 then s
        else ReadFrames(s.(items := s.items + [t], remaining := s.remaining - 1), frames[1..])
      case Close => s.(writer := None)
      case ReadFailure => s.(writer := None)
      case _ => ReadFrames(s, frames[1..])
  }

  /** The texts of the text frames, in order. */
  function Texts(frames: seq<Frame>): (r: seq<string>)
    ensures |r| <= |frames|
  {
    if frames == [] then []
    else (if frames[0].Text? then [frames[0].text] else []) + Texts(frames[1..])
  }

  predicate NoStop(frames: seq<Frame>) {
    forall i :: 0 <= i < |frames| ==> !Stops(frames[i])
  }

  /** A connection that just ends (no Close, no error) forwards all its text frames in order, skips the rest and keeps the writer. */
  lemma {:induction false} TextsForwardedInOrder(s: ReadState, frames: seq<Frame>)
    requires NoStop(frames)
    requires |Texts(frames)| <= s.remaining
    ensures ReadFrames(s, frames) == s.(items := s.items + Texts(frames), remaining := s.remaining - |Texts(frames)|)
    decreases |frames|
  {
    if frames != [] {
      assert NoStop(frames[1..]) by {
        forall i | 0 <= i < |frames[1..]| ensures !Stops(frames[1..][i]) {
          assert frames[1..][i] == frames[i + 1];
        }
      }
      assert !Stops(frames[0]);
      if frames[0].Text? {
        var next := s.(items := s.items + [frames[0].text], remaining := s.remaining - 1);
        TextsForwardedInOrder(next, frames[1..]);
        assert next.items + Texts(frames[1..]) == s.items + Texts(frames);
      } else {
        TextsForwardedInOrder(s, frames[1..]);
      }
    }
  }

  /** Whatever the frames, the writer ends either as it was or cleared. */
  lemma {:induction false} WriterKeptOrCleared(s: ReadState, frames: seq<Frame>)
    ensures ReadFrames(s, frames).writer in {s.writer, None}
    ensures NoStop(frames) ==> ReadFrames(s, frames).writer == s.writer
    decreases |frames|
  {
    if frames != [] {
      var next := if frames[0].Text? && s.remaining > 0
                  then s.(items := s.items + [frames[0].text], remaining := s.remaining - 1) else s;
      WriterKeptOrCleared(next, frames[1..]);
      if NoStop(frames) {
        assert !Stops(frames[0]);
        assert NoStop(frames[1..]) by {
          forall i | 0 <= i < |frames[1..]| ensures !Stops(frames[1..][i]) {
            assert frames[1..][i] == frames[i + 1];
          }
        }
      }
    }
  }

  /** A Close frame or read error, reached while the queue still takes messages, clears the writer after forwarding the text before it. */
  lemma {:induction false} StopClearsWriter(s: ReadState, before: seq<Frame>, stop: Frame, after: seq<Frame>)
    requires NoStop(before) && Stops(stop)
    requires |Texts(before)| <= s.remaining
    ensures var e := ReadFrames(s, before + [stop] + after);
            e.writer == None && e.items == s.items + Texts(before)
    decreases |before|
  {
    if before == [] {
      assert before + [stop] + after == [stop] + after;
    } else {
      var frames := before + [stop] + after;
      assert frames[0] == before[0];
      assert frames[1..] == before[1..] + [stop] + after;
      assert NoStop(before[1..]) by {
        forall i | 0 <= i < |before[1..]| ensures !Stops(before[1..][i]) {
          assert before[1..][i] == before[i + 1];
        }
      }
      assert !Stops(before[0]);
      if before[0].Text? {
        var next := s.(items := s.items + [before[0].text], remaining := s.remaining - 1);
        StopClearsWriter(next, before[1..], stop, after);
        assert next.items + Texts(before[1..]) == s.items + Texts(before);
      } else {
        StopClearsWriter(s, before[1..], stop, after);
      }
    }
  }

  /**
   * The accept loop from connection `index` on: each accepted connection
   * replaces the writer and is read to its end; a failed handshake ends the
   * loop with an error. Running out of connections ends it with `Ok`.
   */
  function AcceptAll(s: ReadState, conns: seq<Connection>, index: nat): (ReadState, Result<(), string>)
    decreases |conns|
  {
    if conns == [] then (s, Success(()))
    else if !conns[0].handshakeOk then (s, Failure("Failed to accept WebSocket connection"))
    else AcceptAll(ReadFrames(s.(writer := Some(Writer(index, conns[0].sinkOk))), conns[0].frames), conns[1..], index + 1)
  }

  /** After a connection that ends without Close or error, the writer is that connection's. */
  lemma AcceptedConnectionOwnsWriter(s: ReadState, c: Connection, index: nat)
    requires c.handshakeOk && NoStop(c.frames)
    ensures AcceptAll(s, [c], index).0.writer == Some(Writer(index, c.sinkOk))
    ensures AcceptAll(s, [c], index).1.Success?
  {
    WriterKeptOrCleared(s.(writer := Some(Writer(index, c.sinkOk))), c.frames);
  }

  /** A failed handshake ends the accept loop with an error, before anything is read from that connection. */
  lemma HandshakeFailureEndsStart(s: ReadState, conns: seq<Connection>, index: nat)
    requires conns != [] && !conns[0].handshakeOk
    ensures AcceptAll(s, conns, index) == (s, Failure("Failed to accept WebSocket connection"))
  {
  }

  /** The WebSocket transport: the listening address, the current writer, and the messages sent, tagged with their connection. */
  class WebSocketTransport {
    var addr: string
    var writer: Option<Writer>
    var sent: seq<(nat, string)>

    constructor (addr: string)
      ensures this.addr == addr && writer == None && sent == []
    {
      this.addr := addr;
      writer := None;
      sent := [];
    }

    /** Reads one connection; the writer, queue contents and room afterwards are `ReadFrames` of the state before. */
    method ReadConnection(frames: seq<Frame>, queue: Queue)
      modifies this, queue
      ensures ReadState(writer, queue.items, queue.remaining)
           == ReadFrames(ReadState(old(writer), old(queue.items), old(queue.remaining)), frames)
      ensures addr == old(addr) && sent == old(sent)
    {
      var i := 0;
      while i < |frames|
        invariant 0 <= i <= |frames|
        invariant addr == old(addr) && sent == old(sent)
        invariant ReadFrames(ReadState(writer, queue.items, queue.remaining), frames[i..])
               == ReadFrames(ReadState(old(writer), old(queue.items), old(queue.remaining)), frames)
      {
        assert frames[i..][1..] == frames[i + 1..];
        if frames[i].Text? {
          var ok := queue.Send(frames[i].text);
          if !ok {
            return;
          }
        } else if Stops(frames[i]) {
          writer := None;
          return;
        }
        i := i + 1;
      }
    }

    /**
     * `start`: binds the address (a failure ends with an error), then accepts
     * connections in turn; each one's writer replaces the current one and its
     * frames are read until it ends, closes or fails.
     */
    method Start(bindOk: bool, conns: seq<Connection>, queue: Queue) returns (r: Result<(), string>)
      modifies this, queue
      ensures !bindOk ==>
        && r == Failure("Failed to bind to address") && writer == old(writer)
        && queue.items == old(queue.items) && queue.remaining == old(queue.remaining)
      ensures bindOk ==>
        var (s, outcome) := AcceptAll(ReadState(old(writer), old(queue.items), old(queue.remaining)), conns, 0);
        r == outcome && ReadState(writer, queue.items, queue.remaining) == s
      ensures addr == old(addr) && sent == old(sent)
    {
      if !bindOk {
        return Failure("Failed to bind to address");
      }
      var i := 0;
      while i < |conns|
        invariant 0 <= i <= |conns|
        invariant addr == old(addr) && sent == old(sent)
        invariant AcceptAll(ReadState(writer, queue.items, queue.remaining), conns[i..], i)
               == AcceptAll(ReadState(old(writer), old(queue.items), old(queue.remaining)), conns, 0)
      {
        assert conns[i..][1..] == conns[i + 1..];
        if !conns[i].handshakeOk {
          return Failure("Failed to accept WebSocket connection");
        }
        writer := Some(Writer(i, conns[i].sinkOk));
        ReadConnection(conns[i].frames, queue);
        i := i + 1;
      }
      return Success(());
    }

    /**
     * `send_response`: with no writer, or an empty response, nothing is sent
     * and the result is `Ok`; otherwise the response goes out as one text
     * frame on the current connection, or the send fails.
     */
    method SendResponse(response: string) returns (r: Result<(), string>)
      modifies this
      ensures writer == old(writer) && addr == old(addr)
      ensures response == [] || old(writer).None? ==> r.Success? && sent == old(sent)
      ensures response != [] && old(writer).Some? && old(writer).value.sinkOk ==>
        r.Success? && sent == old(sent) + [(old(writer).value.index, response)]
      ensures response != [] && old(writer).Some? && !old(writer).value.sinkOk ==>
        r == Failure("Failed to send WebSocket message") && sent == old(sent)
    {
      if response != [] && writer.Some? {
        if !writer.value.sinkOk {
          return Failure("Failed to send WebSocket message");
        }
        sent := sent + [(writer.value.index, response)];
      }
      return Success(());
    }
  }

  // ----------------------------------------------------------- either kind

  /** The transport the server runs on. */
  datatype TransportType = Stdio(stdio: StdioTransport) | WebSocket(ws: WebSocketTransport)
  {
    /** The one object the wrapped transport owns. */
    function Repr(): set<object> {
      if Stdio? then {stdio} else {ws}
    }

    ghost predicate Valid()
      reads Repr()
    {
      Stdio? ==> stdio.Valid()
    }
  }

  /** How sending a non-empty response on a transport in this state goes: delivered, dropped silently, or failed. */
  datatype Link = Delivers | Drops | Fails

  function LinkOf(t: TransportType): (l: Link)
    reads t.Repr()
    ensures t.Stdio? ==> (l == Delivers <==> t.stdio.writable) && l != Drops
    ensures t.WebSocket? ==> (l == Drops <==> t.ws.writer.None?)
  {
    if t.Stdio? then (if t.stdio.writable then Delivers else Fails)
    else if t.ws.writer.None? then Drops
    else if t.ws.writer.value.sinkOk then Delivers
    else Fails
  }

  /** The responses the transport has put on the wire so far. */
  ghost function Delivered(t: TransportType): seq<string>
    reads t.Repr()
  {
    if t.Stdio? then t.stdio.sent else SentTexts(t.ws.sent)
  }

  function SentTexts(sent: seq<(nat, string)>): (r: seq<string>)
    ensures |r| == |sent| && forall i :: 0 <= i < |sent| ==> r[i] == sent[i].1
  {
    seq(|sent|, i requires 0 <= i < |sent| => sent[i].1)
  }

  /** `TransportType::send_response`: the wrapped transport's `send_response`, and nothing else changes. */
  method SendResponse(t: TransportType, response: string) returns (r: Result<(), string>)
    requires t.Valid()
    modifies t.Repr()
    ensures t.Valid() && LinkOf(t) == old(LinkOf(t))
    ensures response == [] ==> r.Success? && Delivered(t) == old(Delivered(t))
    ensures response != [] && old(LinkOf(t)) == Delivers ==> r.Success? && Delivered(t) == old(Delivered(t)) + [response]
    ensures response != [] && old(LinkOf(t)) == Drops ==> r.Success? && Delivered(t) == old(Delivered(t))
    ensures response != [] && old(LinkOf(t)) == Fails ==> r.Failure? && Delivered(t) == old(Delivered(t))
    ensures t.Stdio? ==> t.stdio.stdout == old(t.stdio.stdout) + (if r.Success? then Framed(response) else [])
  {
    match t
    case Stdio(s) =>
      r := s.SendResponse(response);
    case WebSocket(w) =>
      r := w.SendResponse(response);
  }

  /** `TransportType::start`: the wrapped transport's `start`, reading standard input or accepting connections. */
  method Start(t: TransportType, input: seq<LineRead>, bindOk: bool, conns: seq<Connection>, queue: Queue) returns (r: Result<(), string>)
    requires queue !in t.Repr()
    modifies t.Repr(), queue
    ensures t.Stdio? ==>
      r.Success? && queue.items == old(queue.items) + Prefix(LinesBeforeStop(input), old(queue.remaining))
    ensures t.WebSocket? && !bindOk ==> r == Failure("Failed to bind to address") && queue.items == old(queue.items)
    ensures t.WebSocket? && bindOk ==>
      var (s, outcome) := AcceptAll(ReadState(old(t.ws.writer), old(queue.items), old(queue.remaining)), conns, 0);
      r == outcome && t.ws.writer == s.writer && queue.items == s.items
  {
    match t
    case Stdio(s) =>
      r := s.Start(input, queue);
    case WebSocket(w) =>
      r := w.Start(bindOk, conns, queue);
  }
}
