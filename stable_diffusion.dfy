/** The Stable Diffusion client: one POST to the inference endpoint whose body, on
    HTTP 200, is wrapped in an in-memory stream. The HTTP exchange is an oracle. */
module StableDiffusion {
  import opened Base

  /** The POST outcome: it raised (transport error), or a response with its status code and body. */
  datatype HttpReply = PostFailed | Response(statusCode: int, content: Bytes)

  function GenerateSd(reply: HttpReply): (img: Option<Image>)
    ensures img.Some? <==> reply.Response? && reply.statusCode == 200
    ensures img.Some? ==> img.value == Stream(reply.content)
  {
    match reply
    case PostFailed => None
    case Response(code, content) => if code == 200 then Some(Stream(content)) else None
  }

  /** A successful reply counts as an image even when its body is empty: a stream object is
      always truthy. The second clause, about Kandinsky's raw bytes, is there for contrast. */
  lemma SdSuccessIsTruthy(content: Bytes)
    ensures Truthy(GenerateSd(Response(200, content)))
    ensures !Truthy(Some(RawBytes([])))
  {
  }
}
