/** Chat messages as the replay benchmarks see them.

    A message is a role, a content that is either a plain string or a list of
    blocks, and whatever other keys the JSON object carries.  Two messages are
    equal exactly when all three agree, as for Python dictionaries. */
module Messages {

  datatype Option<+T> = None | Some(value: T)

  /** A content block.  `payload` is the text of a text block and the content of
      a tool result; blocks that are not JSON objects are `Scalar`. */
  datatype Block =
    | Dict(kind: string, payload: string, cacheControl: bool, extra: map<string, string>)
    | Scalar(value: string)

  datatype Content = Text(text: string) | Blocks(blocks: seq<Block>) | Missing

  datatype Message = Message(role: string, content: Content, extra: map<string, string>)
}
