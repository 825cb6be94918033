/** The messages that cross the tunnel (internal/tunnel/tunnel.proto). */
module Tunnel {

  newtype byte = b: int | 0 <= b < 256

  type Bytes = seq<byte>

  type StreamId = string

  const STATUS_BAD_GATEWAY := 502
  const STATUS_TEAPOT := 418

  datatype HttpHeader = HttpHeader(name: string, values: seq<string>)

  datatype TunnelHeaders = TunnelHeaders(
    streamId: StreamId, statusCode: int, headers: seq<HttpHeader>, contentLength: int)

  /** What the controller sends an agent. */
  datatype TunnelRequest = TunnelRequest(
    streamId: StreamId, name: string, typ: string, httpMethod: string, uri: string, body: Bytes,
    headers: seq<HttpHeader>)

  /** The `oneof` of the StreamFlow message. */
  datatype StreamFlow =
    | StreamID(id: StreamId)
    | Headers(h: TunnelHeaders)
    | Data(data: Bytes)
    | Cancel
    | Done

  lemma Associate<T>(a: seq<T>, b: seq<T>, c: seq<T>)
    ensures (a + b) + c == a + (b + c)
  {
  }

  /** The response bytes a run of messages carries, in order. */
  function Payload(msgs: seq<StreamFlow>): Bytes {
    if msgs == [] then []
    else (if msgs[0].Data? then msgs[0].data else []) + Payload(msgs[1..])
  }

  lemma {:induction false} PayloadConcat(a: seq<StreamFlow>, b: seq<StreamFlow>)
    ensures Payload(a + b) == Payload(a) + Payload(b)
  {
    if a == [] {
      assert a + b == b;
    } else {
      var rest := a[1..];
      PayloadConcat(rest, b);
      assert a == [a[0]] + rest && a + b == [a[0]] + (rest + b);
      FirstPayload(a[0], rest);
      FirstPayload(a[0], rest + b);
      Associate(if a[0].Data? then a[0].data else [], Payload(rest), Payload(b));
    }
  }

  lemma FirstPayload(m: StreamFlow, rest: seq<StreamFlow>)
    ensures Payload([m] + rest) == (if m.Data? then m.data else []) + Payload(rest)
  {
    assert ([m] + rest)[1..] == rest;
  }

  lemma PayloadSnoc(a: seq<StreamFlow>, m: StreamFlow)
    ensures Payload(a + [m]) == Payload(a) + (if m.Data? then m.data else [])
  {
    PayloadConcat(a, [m]);
    assert [m][1..] == [];
  }

  lemma {:induction false} NoPayload(msgs: seq<StreamFlow>)
    requires forall i :: 0 <= i < |msgs| ==> !msgs[i].Data?
    ensures Payload(msgs) == []
  {
    if msgs != [] {
      NoPayload(msgs[1..]);
    }
  }
}
