/** What the two primitives make of the server's answer, and a whole call
    with the network as a parameter. */
module Responses {
  import opened Results
  import opened Errors
  import opened Config
  import opened Requests
  import opened Dispatch

  /** A value of Python's `bytes`. */
  newtype Byte = b: int | 0 <= b < 256

  /** The fields of the decoded JSON body the primitives look up; `None` is
      a missing key. */
  datatype Body = Body(data: Option<seq<int>>, text: Option<string>)

  /** An HTTP response: its status and its decoded JSON body. */
  datatype Response = Response(status: int, body: Body)

  /** What a call returns: the image bytes of `_get` or the string of `_text`. */
  datatype Output = Bytes(bytes: seq<Byte>) | Text(text: string)

  /** Python `bytes(data)`: defined exactly when every element is in 0..255,
      and then element by element the same numbers. */
  function ToBytes(data: seq<int>): (r: Option<seq<Byte>>)
    ensures r.Some? <==> forall k :: 0 <= k < |data| ==> 0 <= data[k] < 256
    ensures r.Some? ==> |r.value| == |data| && forall k :: 0 <= k < |data| ==> r.value[k] as int == data[k]
    decreases |data|
  {
    if data == [] then Some([])
    else if !(0 <= data[0] < 256) then None
    else
      match ToBytes(data[1..])
      case None => None
      case Some(rest) => Some([data[0] as Byte] + rest)
  }

  /** The numbers of a byte string. */
  function Numbers(bs: seq<Byte>): (r: seq<int>)
    ensures |r| == |bs| && forall k :: 0 <= k < |bs| ==> r[k] == bs[k] as int
  {
    seq(|bs|, k requires 0 <= k < |bs| => bs[k] as int)
  }

  /** Any byte string sent as its list of numbers comes back unchanged. */
  lemma BytesRoundTrip(bs: seq<Byte>)
    ensures ToBytes(Numbers(bs)) == Some(bs)
  {
    var r := ToBytes(Numbers(bs));
    assert r.Some?;
    assert |r.value| == |bs|;
    forall k | 0 <= k < |bs|
      ensures r.value[k] == bs[k]
    {
      assert r.value[k] as int == bs[k] as int;
    }
    assert r.value == bs;
  }

  /** The tail of `_get` and `_text`: any status but 200 raises before the
      body is read; then `_get` converts `data` to bytes and `_text` returns
      `text`, a missing key raising `KeyError`. */
  function Interpret(kind: Kind, resp: Response): (r: Result<Output, Error>)
    ensures resp.status != 200 ==> r == Err(HttpStatus(resp.status))
    ensures r.Ok? ==> resp.status == 200 && (r.value.Bytes? <==> kind == Binary)
    ensures kind == Binary && resp.status == 200 ==>
      (resp.body.data.None? ==> r == Err(MissingKey("data")))
      && (resp.body.data.Some? ==>
            var data := resp.body.data.value;
            && (r.Ok? <==> forall k :: 0 <= k < |data| ==> 0 <= data[k] < 256)
            && (r.Err? ==> r.error == ByteOutOfRange)
            && (r.Ok? ==> Numbers(r.value.bytes) == data))
    ensures kind == Textual && resp.status == 200 ==>
      (resp.body.text.None? ==> r == Err(MissingKey("text")))
      && (resp.body.text.Some? ==> r == Ok(Text(resp.body.text.value)))
  {
    if resp.status != 200 then Err(HttpStatus(resp.status))
    else
      match kind
      case Binary =>
        (match resp.body.data
         case None => Err(MissingKey("data"))
         case Some(data) =>
           match ToBytes(data)
           case None => Err(ByteOutOfRange)
           case Some(bs) =>
             assert Numbers(bs) == data;
             Ok(Bytes(bs)))
      case Textual =>
        (match resp.body.text
         case None => Err(MissingKey("text"))
         case Some(t) => Ok(Text(t)))
  }

  /** A whole call, with the network as the function `transport` from the
      request issued to the response received. A call refused before the
      request never reaches the network. */
  function Run(c: Client, call: Call, transport: Request -> Response): (r: Result<Output, Error>)
    ensures Build(c, call).Err? ==> r == Err(Build(c, call).error)
    ensures r.Ok? ==> Build(c, call).Ok? && transport(Build(c, call).value).status == 200
    ensures r.Ok? ==> (r.value.Bytes? <==> Build(c, call).value.kind == Binary)
  {
    match Build(c, call)
    case Err(e) => Err(e)
    case Ok(q) => Interpret(q.kind, transport(q))
  }

  /** Whatever the network would answer, a refused call ends the same way. */
  lemma RefusalIgnoresNetwork(c: Client, call: Call, t1: Request -> Response, t2: Request -> Response)
    requires Build(c, call).Err?
    ensures Run(c, call, t1) == Run(c, call, t2)
  {
  }

  /** An image endpoint whose server answers 200 with the numbers of some
      bytes returns exactly those bytes. */
  lemma ImageBytesDelivered(c: Client, call: Call, transport: Request -> Response, bs: seq<Byte>)
    requires Build(c, call).Ok? && Build(c, call).value.kind == Binary
    requires transport(Build(c, call).value) == Response(200, Body(Some(Numbers(bs)), None))
    ensures Run(c, call, transport) == Ok(Bytes(bs))
  {
    BytesRoundTrip(bs);
  }
}
