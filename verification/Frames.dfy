/** Frames: a header and one of the eight bodies, how a frame is laid out on the wire, what the
    two decoders read, and the size announced up front. */
module Frames {
  import opened Bytes
  import opened Wire
  import opened FrameParts
  import opened Requests
  import opened Responses

  // ---- frames --------------------------------------------------------------

  datatype Body =
    | ProduceBody(produce: ProduceRequest)
    | FetchBody(fetch: FetchRequest)
    | MetadataBody(metadata: MetadataRequest)
    | CreateTopicsBody(createTopics: CreateTopicRequest)
    | ProduceResponseBody(produceResponse: ProduceResponse)
    | FetchResponseBody(fetchResponse: FetchResponse)
    | MetadataResponseBody(metadataResponse: MetadataResponse)
    | CreateTopicsResponseBody(createTopicsResponse: CreateTopicResponse)

  datatype Frame = Frame(size: u32, header: Header, body: Body)

  function PutBody(body: Body, tail: seq<byte>): seq<byte> {
    match body
    case ProduceBody(x) => PutProduceRequest(x, tail)
    case FetchBody(x) => PutFetchRequest(x, tail)
    case MetadataBody(x) => PutMetadataRequest(x, tail)
    case CreateTopicsBody(x) => PutCreateTopicRequest(x, tail)
    case ProduceResponseBody(x) => PutProduceResponse(x, tail)
    case FetchResponseBody(x) => PutFetchResponse(x, tail)
    case MetadataResponseBody(x) => PutMetadataResponse(x, tail)
    case CreateTopicsResponseBody(x) => PutCreateTopicResponse(x, tail)
  }

  function SizeBody(body: Body): nat {
    match body
    case ProduceBody(x) => SizeProduceRequest(x)
    case FetchBody(x) => SizeFetchRequest(x)
    case MetadataBody(x) => SizeMetadataRequest(x)
    case CreateTopicsBody(x) => SizeCreateTopicRequest(x)
    case ProduceResponseBody(x) => SizeProduceResponse(x)
    case FetchResponseBody(x) => SizeFetchResponse(x)
    case MetadataResponseBody(x) => SizeMetadataResponse(x)
    case CreateTopicsResponseBody(x) => SizeCreateTopicResponse(x)
  }

  ghost predicate SoundBody(body: Body) {
    match body
    case ProduceBody(x) => SoundProduceRequest(x)
    case FetchBody(x) => SoundFetchRequest(x)
    case MetadataBody(x) => SoundMetadataRequest(x)
    case CreateTopicsBody(x) => SoundCreateTopicRequest(x)
    case ProduceResponseBody(x) => SoundProduceResponse(x)
    case FetchResponseBody(x) => SoundFetchResponse(x)
    case MetadataResponseBody(x) => SoundMetadataResponse(x)
    case CreateTopicsResponseBody(x) => SoundCreateTopicResponse(x)
  }

  /** What a broker reads after the size: the key decides which request it is. */
  function ReadRequestBody(key: ApiKey, buf: seq<byte>): Read<Body> {
    match key
    case Produce =>
      var (x, rest) :- ReadProduceRequest(buf);
      Read(ProduceBody(x), rest)
    case Fetch =>
      var (x, rest) :- ReadFetchRequest(buf);
      Read(FetchBody(x), rest)
    case Metadata =>
      var (x, rest) :- ReadMetadataRequest(buf);
      Read(MetadataBody(x), rest)
    case CreateTopics =>
      var (x, rest) :- ReadCreateTopicRequest(buf);
      Read(CreateTopicsBody(x), rest)
  }

  /** What a client reads: the key decides which response it is. */
  function ReadResponseBody(key: ApiKey, buf: seq<byte>): Read<Body> {
    match key
    case Produce =>
      var (x, rest) :- ReadProduceResponse(buf);
      Read(ProduceResponseBody(x), rest)
    case Fetch =>
      var (x, rest) :- ReadFetchResponse(buf);
      Read(FetchResponseBody(x), rest)
    case Metadata =>
      var (x, rest) :- ReadMetadataResponse(buf);
      Read(MetadataResponseBody(x), rest)
    case CreateTopics =>
      var (x, rest) :- ReadCreateTopicResponse(buf);
      Read(CreateTopicsResponseBody(x), rest)
  }

  function DecodeRequest(buf: seq<byte>, size: u32): Read<Frame> {
    var (header, b1) :- ReadHeader(buf);
    var (body, rest) :- ReadRequestBody(header.apiKey, b1);
    Read(Frame(size, header, body), rest)
  }

  function DecodeResponse(buf: seq<byte>, size: u32): Read<Frame> {
    var (header, b1) :- ReadHeader(buf);
    var (body, rest) :- ReadResponseBody(header.apiKey, b1);
    Read(Frame(size, header, body), rest)
  }

  /** A new frame announces the size of its header and body. */
  function NewFrame(header: Header, body: Body): Frame { Frame(CastU32(HeaderSize(header) + SizeBody(body)), header,
                    body) }

  /** The encoding: everything after the first four bytes, which are patched to its length. */
  function EncodeFrame(f: Frame): seq<byte> {
    var payload := PutHeader(f.header, PutBody(f.body, []));
    PutU32(CastU32(|payload|)) + payload
  }

  function RequestKey(body: Body): ApiKey
    requires body.ProduceBody? || body.FetchBody? || body.MetadataBody? || body.CreateTopicsBody?
  {
    match body
    case ProduceBody(_) => Produce
    case FetchBody(_) => Fetch
    case MetadataBody(_) => Metadata
    case CreateTopicsBody(_) => CreateTopics
  }

  function ResponseKey(body: Body): ApiKey
    requires !(body.ProduceBody? || body.FetchBody? || body.MetadataBody? || body.CreateTopicsBody?)
  {
    match body
    case ProduceResponseBody(_) => Produce
    case FetchResponseBody(_) => Fetch
    case MetadataResponseBody(_) => Metadata
    case CreateTopicsResponseBody(_) => CreateTopics
  }

  predicate IsRequest(body: Body) { body.ProduceBody? || body.FetchBody? || body.MetadataBody? || body.CreateTopicsBody? }

  /** Every length fits its field, batches are sound, and the key goes with the body. */
  ghost predicate SoundFrame(f: Frame) {
    && SoundHeader(f.header) && SoundBody(f.body)
    && f.header.apiKey == (if IsRequest(f.body) then RequestKey(f.body) else ResponseKey(f.body))
    && HeaderSize(f.header) + SizeBody(f.body) < 0x1_0000_0000
    && f.size == HeaderSize(f.header) + SizeBody(f.body)
  }

  lemma ReadsBody(body: Body, tail: seq<byte>)
    requires SoundBody(body)
    ensures |PutBody(body, tail)| == SizeBody(body) + |tail|
    ensures IsRequest(body) ==> ReadRequestBody(RequestKey(body), PutBody(body, tail)) == Read(body, tail)
    ensures !IsRequest(body) ==> ReadResponseBody(ResponseKey(body), PutBody(body, tail)) == Read(body, tail)
  {
    hide PutProduceRequest, ReadProduceRequest, SizeProduceRequest, SoundProduceRequest, PutFetchRequest,
      ReadFetchRequest, SizeFetchRequest, SoundFetchRequest, PutMetadataRequest, ReadMetadataRequest,
      SizeMetadataRequest, SoundMetadataRequest, PutCreateTopicRequest, ReadCreateTopicRequest,
      SizeCreateTopicRequest, SoundCreateTopicRequest, PutProduceResponse, ReadProduceResponse, SizeProduceResponse,
      SoundProduceResponse, PutFetchResponse, ReadFetchResponse, SizeFetchResponse, SoundFetchResponse,
      PutMetadataResponse, ReadMetadataResponse, SizeMetadataResponse, SoundMetadataResponse, PutCreateTopicResponse,
      ReadCreateTopicResponse, SizeCreateTopicResponse, SoundCreateTopicResponse;
    match body
    case ProduceBody(x) => ReadsProduceRequest(x, tail);
    case FetchBody(x) => ReadsFetchRequest(x, tail);
    case MetadataBody(x) => ReadsMetadataRequest(x, tail);
    case CreateTopicsBody(x) => ReadsCreateTopicRequest(x, tail);
    case ProduceResponseBody(x) => ReadsProduceResponse(x, tail);
    case FetchResponseBody(x) => ReadsFetchResponse(x, tail);
    case MetadataResponseBody(x) => ReadsMetadataResponse(x, tail);
    case CreateTopicsResponseBody(x) => ReadsCreateTopicResponse(x, tail);
  }

  /** For every sound frame, with any of the eight bodies: the size announced up front is the
      length of the encoding without its first four bytes, those four bytes say so, and the
      matching decoder gives the frame back with nothing left over. */
  lemma FrameRoundTrip(f: Frame)
    requires SoundFrame(f)
    ensures |EncodeFrame(f)| - 4 == f.size == NewFrame(f.header, f.body).size
    ensures ReadU32(EncodeFrame(f)) == Read(f.size, EncodeFrame(f)[4..])
    ensures IsRequest(f.body) ==> DecodeRequest(EncodeFrame(f)[4..], f.size) == Read(f, [])
    ensures !IsRequest(f.body) ==> DecodeResponse(EncodeFrame(f)[4..], f.size) == Read(f, [])
  {
    hide PutHeader, PutBody, ReadHeader, ReadRequestBody, ReadResponseBody, HeaderSize, SizeBody, SoundBody,
      SoundHeader;
    ReadsBody(f.body, []);
    ReadsHeader(f.header, PutBody(f.body, []));
    var payload := PutHeader(f.header, PutBody(f.body, []));
    ReadsU32(f.size, payload);
    Split(PutU32(f.size), payload);
  }
}
