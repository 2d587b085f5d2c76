/**
 * JSON Patch (RFC 6902) as far as the admission webhook uses it: a patch is a
 * sequence of operations, each an object of string members "op", "path" and
 * "value", applied in order to a document; the first operation that cannot
 * be applied makes the whole patch fail (section 5 of RFC 6902). The webhook
 * only emits "add" (section 4.1), so that is the one operation given meaning.
 */
module JsonPatch {
  import opened Wrappers
  import opened JsonValues
  import JsonPointer

  /** One patch operation, with the three string members the webhook writes. */
  datatype PatchOp = PatchOp(op: string, path: string, value: string)

  datatype PatchError =
    | UnsupportedOp(op: string)  // an operation other than "add"
    | BadPointer                 // "path" is not a JSON Pointer
    | MissingParent              // a token names no existing member or element
    | NotContainer               // the target's parent is neither an object nor an array
    | BadIndex                   // an array token that is not a valid index

  /**
   * The "add" operation (section 4.1 of RFC 6902) at the location named by
   * `tokens`: the empty pointer replaces the document; in an object the
   * member is added or replaced; in an array the value is inserted before
   * the index, which may equal the length, and "-" appends. Every
   * intermediate location must already exist.
   */
  function AddAt(doc: Json, tokens: seq<string>, v: Json): Result<Json, PatchError>
    decreases |tokens|
  {
    if tokens == [] then Ok(v)
    else if |tokens| == 1 then
      match doc
      case JObject(m) => Ok(JObject(m[tokens[0] := v]))
      case JArray(a) =>
        if tokens[0] == "-" then Ok(JArray(a + [v]))
        else (match JsonPointer.ArrayIndex(tokens[0])
              case Some(i) => if i <= |a| then Ok(JArray(a[..i] + [v] + a[i..])) else Err(BadIndex)
              case None => Err(BadIndex))
      case _ => Err(NotContainer)
    else
      match doc
      case JObject(m) =>
        if tokens[0] !in m then Err(MissingParent)
        else (match AddAt(m[tokens[0]], tokens[1..], v)
              case Ok(child) => Ok(JObject(m[tokens[0] := child]))
              case Err(e) => Err(e))
      case JArray(a) =>
        (match JsonPointer.ArrayIndex(tokens[0])
         case Some(i) =>
           if i >= |a| then Err(MissingParent)
           else (match AddAt(a[i], tokens[1..], v)
                 case Ok(child) => Ok(JArray(a[i := child]))
                 case Err(e) => Err(e))
         case None => Err(BadIndex))
      case _ => Err(MissingParent)
  }

  /** One operation; its "value" member is the JSON string it holds. */
  function ApplyOp(doc: Json, p: PatchOp): Result<Json, PatchError>
  {
    if p.op != "add" then Err(UnsupportedOp(p.op))
    else match JsonPointer.Parse(p.path)
      case None => Err(BadPointer)
      case Some(tokens) => AddAt(doc, tokens, JString(p.value))
  }

  /** A whole patch, operation after operation, stopping at the first error. */
  function Apply(doc: Json, patch: seq<PatchOp>): Result<Json, PatchError>
    decreases |patch|
  {
    if patch == [] then Ok(doc)
    else match ApplyOp(doc, patch[0])
      case Ok(next) => Apply(next, patch[1..])
      case Err(e) => Err(e)
  }

  /**
   * The "add" at `tokens` appends to an array: its target's parent is an
   * array and the last token is "-".
   */
  predicate AppendsAt(doc: Json, tokens: seq<string>)
    decreases |tokens|
  {
    if tokens == [] then false
    else if |tokens| == 1 then doc.JArray? && tokens[0] == "-"
    else match doc
      case JObject(m) => tokens[0] in m && AppendsAt(m[tokens[0]], tokens[1..])
      case JArray(a) =>
        (match JsonPointer.ArrayIndex(tokens[0])
         case Some(i) => i < |a| && AppendsAt(a[i], tokens[1..])
         case None => false)
      case _ => false
  }

  /**
   * After a successful "add", the pointer designates the added value,
   * unless the "add" appended to an array with "-", a token that
   * designates no existing element.
   */
  lemma {:induction false} AddAtResolves(doc: Json, tokens: seq<string>, v: Json)
    requires AddAt(doc, tokens, v).Ok?
    requires !AppendsAt(doc, tokens)
    ensures JsonPointer.Resolve(AddAt(doc, tokens, v).value, tokens) == Some(v)
    decreases |tokens|
  {
    if |tokens| == 1 {
      var d := AddAt(doc, tokens, v).value;
      if doc.JArray? {
        var i := JsonPointer.ArrayIndex(tokens[0]).value;
        assert d.items[i] == v;
      }
    } else if |tokens| > 1 {
      var rest := tokens[1..];
      match doc {
        case JObject(m) =>
          AddAtResolves(m[tokens[0]], rest, v);
        case JArray(a) =>
          AddAtResolves(a[JsonPointer.ArrayIndex(tokens[0]).value], rest, v);
      }
    }
  }

  /**
   * An "add" into an object leaves every member other than the first
   * token's exactly as it was, and adds no other member.
   */
  lemma AddAtKeepsSiblings(m: map<string, Json>, tokens: seq<string>, v: Json)
    requires tokens != []
    requires AddAt(JObject(m), tokens, v).Ok?
    ensures AddAt(JObject(m), tokens, v).value.JObject?
    ensures AddAt(JObject(m), tokens, v).value.fields.Keys == m.Keys + {tokens[0]}
    ensures forall k :: k in m && k != tokens[0] ==> AddAt(JObject(m), tokens, v).value.fields[k] == m[k]
  {
  }
}
