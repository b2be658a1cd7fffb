/** The messages of totem.proto, the status and metadata conversions applied to
    them, and the wire tag space. */
module Messages {

  datatype Option<+T> = None | Some(value: T)

  type Bytes = seq<bv8>

  /** Tags are drawn from an atomic unsigned 64-bit counter. */
  const TAG_SPACE: int := 0x1_0000_0000_0000_0000
  type Tag = t: int | 0 <= t < TAG_SPACE

  /** gRPC metadata as handlers see it: lower-case keys, lists of values. */
  type Metadata = map<string, seq<string>>

  /** The wire form of metadata: every list is wrapped in a message. */
  datatype MDValues = MDValues(items: seq<string>)
  type MD = map<string, MDValues>

  const OK: nat := 0
  const UNKNOWN: nat := 2
  const NOT_FOUND: nat := 5
  const UNIMPLEMENTED: nat := 12

  datatype Status = Status(code: nat, message: string)

  /** A non-nil Go error seen through status.Convert: it never carries code OK. */
  type Failure = s: Status | s.code != OK witness Status(UNKNOWN, "Unknown")

  datatype Response = Response(response: Bytes, statusProto: Option<Status>)

  datatype ServerStreamMessage = ServerStreamMessage(headers: Option<MD>, response: Bytes)

  datatype Content =
    | NoContent
    | Request(request: Bytes)
    | Reply(response: Response)
    | StreamMsg(msg: ServerStreamMessage)

  datatype RPC = RPC(tag: Tag, serviceName: string, methodName: string,
                     content: Content, metadata: Option<MD>)

  /** Response.GetStatus: a missing status reads as Unknown. */
  function GetStatus(r: Response): (s: Status)
    ensures r.statusProto.None? ==> s.code != OK
    ensures r.statusProto.Some? ==> s == r.statusProto.value
  {
    match r.statusProto
    case None => Status(UNKNOWN, "Unknown")
    case Some(s) => s
  }

  /** status.Convert(err).Proto(): a nil error has no status message. */
  function ErrorProto(err: Option<Failure>): Option<Status> {
    match err
    case None => None
    case Some(f) => Some(f)
  }

  /** ToMD: the metadata a message carries; a missing one reads as empty. */
  function ToMD(md: Option<MD>): Metadata {
    match md
    case None => map[]
    case Some(m) => map k | k in m :: m[k].items
  }

  /** FromMD on non-nil metadata. */
  function FromMD(md: Metadata): Option<MD> {
    Some(map k | k in md :: MDValues(md[k]))
  }

  /** FromMD; nil metadata have no wire form. */
  function WireMD(md: Option<Metadata>): Option<MD> {
    match md
    case None => None
    case Some(m) => FromMD(m)
  }

  /** The loop of FromMD fills the wire map one key at a time; nil metadata stay nil. */
  method WrapMD(md: Option<Metadata>) returns (wire: Option<MD>)
    ensures wire == WireMD(md) && (wire.None? <==> md.None?)
    ensures md.Some? ==> ToMD(wire) == md.value
    ensures md.Some? ==> wire.value.Keys == md.value.Keys && forall k :: k in md.value ==> wire.value[k].items == md.value[k]
  {
    if md.None? {
      return None;
    }
    var source := md.value;
    var m: MD := map[];
    var rest := source.Keys;
    while rest != {}
      invariant rest <= source.Keys
      invariant m == map k | k in source && k !in rest :: MDValues(source[k])
      decreases rest
    {
      var k :| k in rest;
      m := m[k := MDValues(source[k])];
      rest := rest - {k};
    }
    assert m == FromMD(source).value;
    MetadataRoundTrip(source);
    wire := Some(m);
  }

  /** The loop of ToMD; it unwraps what FromMD wrapped. */
  method UnwrapMD(m: MD) returns (md: Metadata)
    ensures md == ToMD(Some(m)) && md.Keys == m.Keys && forall k :: k in m ==> md[k] == m[k].items
    ensures FromMD(md) == Some(m)
  {
    md := map[];
    var rest := m.Keys;
    while rest != {}
      invariant rest <= m.Keys
      invariant md == map k | k in m && k !in rest :: m[k].items
      decreases rest
    {
      var k :| k in rest;
      md := md[k := m[k].items];
      rest := rest - {k};
    }
    assert m == FromMD(md).value;
  }

  /** Metadata survives the conversion done at every hop. */
  lemma MetadataRoundTrip(md: Metadata)
    ensures ToMD(FromMD(md)) == md
  {
    var w := FromMD(md).value;
    assert forall k :: k in md ==> w[k].items == md[k];
  }

  /** What an invocation or a handler returns.  A Go error may carry any status. */
  datatype Outcome = Done(response: Bytes) | Failed(status: Status)

  /** The three kinds of message a worker sends. */
  function OkReply(tag: Tag, data: Bytes, md: Metadata): RPC {
    RPC(tag, "", "", Reply(Response(data, Some(Status(OK, "OK")))), FromMD(md))
  }

  function ErrReply(tag: Tag, err: Option<Status>, md: Metadata): RPC {
    RPC(tag, "", "", Reply(Response([], err)), FromMD(md))
  }

  function StreamReply(tag: Tag, msg: ServerStreamMessage): RPC {
    RPC(tag, "", "", StreamMsg(msg), None)
  }

  /** What the caller makes of a response. */
  function Observe(r: Response): Outcome {
    var stat := GetStatus(r);
    if stat.code != OK then Failed(stat) else Done(r.response)
  }

  /** A message object as goroutines share it: forwarding overwrites its tag and its
      metadata in place. */
  class Message {
    var tag: Tag
    var metadata: Option<MD>
    const serviceName: string
    const methodName: string
    const content: Content

    constructor (m: RPC)
      ensures Value() == m
    {
      tag, metadata := m.tag, m.metadata;
      serviceName, methodName, content := m.serviceName, m.methodName, m.content;
    }

    function Value(): RPC reads this { RPC(tag, serviceName, methodName, content, metadata) }
  }
}
