/** The reply handling of generate_text_svg_code in
    services/text_svg_generation_service.py: the API-key check, the shape
    check of the chat-completion reply, the content path, and the string
    pipeline that cleans a Markdown fence off the content before it is
    decoded. The HTTP call is left out (its decoded reply is an input) and
    json.loads is an oracle. */
module TextSvgService {
  import opened Py
  import opened PyStr
  import opened PyJson
  import opened FenceCleaning

  /** `x[0]` on a decoded JSON value: the first element of a list, the first
      character of a string, KeyError on a dict (its keys are strings),
      TypeError otherwise. */
  function First(j: Json): (r: Result<Json>)
    ensures j.JArr? && j.items != [] ==> r == Ok(j.items[0])
    ensures r.Err? ==> r.exc in {IndexError, KeyError, TypeError}
  {
    match j
    case JArr(items) => if items == [] then Err(IndexError) else Ok(items[0])
    case JStr(s) => if s == [] then Err(IndexError) else Ok(JStr([s[0]]))
    case JObj(_) => Err(KeyError)
    case _ => Err(TypeError)
  }

  /** Lines 82-86: a reply without "choices", or with an empty "choices",
      raises ValueError before anything is read; otherwise
      `reply['choices'][0]['message']['content']`. */
  function ReplyContent(reply: Json): (r: Result<Json>)
    ensures reply.JObj? && "choices" !in Keys(reply.fields) ==> r == Err(ValueError)
  {
    match In("choices", reply)
    case Err(e) => Err(e)
    case Ok(hasChoices) =>
      if !hasChoices then Err(ValueError)
      else
        match Subscript(reply, "choices")
        case Err(e) => Err(e)
        case Ok(choices) =>
          match Len(choices)
          case Err(e) => Err(e)
          case Ok(n) =>
            if n == 0 then Err(ValueError)
            else
              match First(choices)
              case Err(e) => Err(e)
              case Ok(choice) =>
                match Subscript(choice, "message")
                case Err(e) => Err(e)
                case Ok(message) => Subscript(message, "content")
  }

  /** An empty choices list raises ValueError too. */
  lemma EmptyChoicesRaises(fields: seq<(string, Json)>)
    requires Lookup(fields, "choices") == Some(JArr([]))
    ensures ReplyContent(JObj(fields)) == Err(ValueError)
  {
  }

  /** A well-formed reply yields the content of its first choice. */
  lemma FirstChoiceContent(fields: seq<(string, Json)>, first: Json, rest: seq<Json>, message: Json, content: Json)
    requires Lookup(fields, "choices") == Some(JArr([first] + rest))
    requires Subscript(first, "message") == Ok(message)
    requires Subscript(message, "content") == Ok(content)
    ensures ReplyContent(JObj(fields)) == Ok(content)
  {
  }

  /** Lines 18-19 and 82-88 after the reply is in: the API key must be set
      and non-empty, the content must be a string (`.strip` raises
      AttributeError otherwise), and the cleaned content must decode. */
  function TextSvgProperties(apiKey: Option<string>, reply: Json, parse: string -> Result<Json>): (r: Result<Json>)
    ensures apiKey.None? || apiKey == Some("") ==> r == Err(ValueError)
  {
    if apiKey.None? || apiKey.value == "" then Err(ValueError)
    else
      match ReplyContent(reply)
      case Err(e) => Err(e)
      case Ok(content) =>
        if !content.JStr? then Err(AttributeError)
        else
          match parse(CleanFence(content.s))
          case Err(_) => Err(DecodeError)
          case Ok(properties) => Ok(properties)
  }

  /** The cleaned text has no whitespace at either end. */
  lemma CleanFenceTrimmed(content: string)
    ensures var r := CleanFence(content);
      r == [] || (!IsSpace(r[0]) && !IsSpace(r[|r| - 1]))
  {
  }
}
