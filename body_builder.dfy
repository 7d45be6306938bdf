/**
  The request-body builder of the Telegram "Send Custom Message" node: one
  item's parameters, and its custom JSON override, become the body of one
  Bot API request.
 */
module BodyBuilder {
  import opened Wrappers
  import opened Json

  /** A request body: a JSON object, by property name. */
  type Body = map<string, Value>

  /** A JSON text parser, total on strings: `None` where the text is not JSON. */
  type Parser = string -> Option<Value>

  /** The `customJson` parameter: JSON text to parse, or an object given as such. */
  datatype CustomJson = Text(text: string) | Structured(fields: Object)

  /** The parameters the node reads for one input item. */
  datatype ItemParameters = ItemParameters(
    operation: string,
    chatId: string,
    text: string,
    photo: string,
    customJson: CustomJson)

  /** The errors building a body can throw. */
  datatype Error =
    | InvalidCustomJson  // the override is text that does not parse
    | NullOverride       // the override parses to `null`, whose keys cannot be listed

  /** The operation whose body carries a photo; every other operation sends text. */
  const SendPhoto: string := "sendPhoto"

  /** The default of the `customJson` parameter. */
  const DefaultCustomJson: string := "{}"

  /** The message the node's own validation error carries. */
  const InvalidJsonMessage: string := "Custom JSON must be valid JSON"

  /**
    The message each error carries: the node's own message for override text
    that does not parse, the engine's TypeError text for `null`.
   */
  function ErrorMessage(e: Error): (m: string)
    ensures m == InvalidJsonMessage <==> e == InvalidCustomJson
  {
    match e
    case InvalidCustomJson => InvalidJsonMessage
    case NullOverride => "Cannot convert undefined or null to object"
  }

  /**
    True when every property name starts with something other than a digit,
    so that no array or string override can produce it.
   */
  predicate NamedKeys(b: Body)
  {
    forall k :: k in b ==> |k| > 0 && !('0' <= k[0] <= '9')
  }

  /**
    The body before the override: `sendPhoto` sends the chat and the photo,
    with the text as caption only when there is text; any other operation
    sends the chat and the text.
   */
  function BaseBody(operation: string, chatId: string, text: string, photo: string): (b: Body)
    ensures "chat_id" in b && b["chat_id"] == Str(chatId)
    ensures operation == SendPhoto ==>
      && b.Keys == {"chat_id", "photo"} + (if text != "" then {"caption"} else {})
      && b["photo"] == Str(photo)
      && ("caption" in b ==> b["caption"] == Str(text))
    ensures operation != SendPhoto ==>
      && b.Keys == {"chat_id", "text"}
      && b["text"] == Str(text)
  {
    if operation == SendPhoto then
      var withPhoto := map["chat_id" := Str(chatId), "photo" := Str(photo)];
      if text != "" then withPhoto["caption" := Str(text)] else withPhoto
    else
      map["chat_id" := Str(chatId), "text" := Str(text)]
  }

  /**
    The override as a value: text is parsed, and a text that does not parse
    is an `InvalidCustomJson` error; an object is taken as it is.
   */
  function NormaliseOverride(custom: CustomJson, parse: Parser): (r: Result<Value, Error>)
    ensures custom.Structured? ==> r == Success(Obj(custom.fields))
    ensures custom.Text? ==> (r.Failure? <==> parse(custom.text).None?)
    ensures custom.Text? && r.Success? ==> parse(custom.text) == Some(r.value)
    ensures r.Failure? ==> r.error == InvalidCustomJson
  {
    match custom
    case Text(text) =>
      (match parse(text)
       case None => Failure(InvalidCustomJson)
       case Some(v) => Success(v))
    case Structured(fields) => Success(Obj(fields))
  }

  /**
    Object spread `{...base, ...entries}`, done only when `entries` has a
    property: a shallow union in which the entries win.
   */
  function Spread(base: Body, entries: Object): (r: Body)
    ensures r.Keys == base.Keys + entries.Keys
    ensures forall k :: k in entries ==> r[k] == entries[k]
    ensures forall k :: k in base && k !in entries ==> r[k] == base[k]
  {
    if |entries| > 0 then base + entries else base
  }

  /**
    The override applied to a base body: its own properties are spread onto
    the base; listing the properties of `null` throws.
   */
  function MergeOverride(base: Body, v: Value): (r: Result<Body, Error>)
    ensures r.Failure? <==> v.Null?
    ensures r.Failure? ==> r.error == NullOverride
    ensures v.Obj? ==> r == Success(Spread(base, v.fields))
    ensures v.Bool? || v.Num? ==> r == Success(base)
    ensures r.Success? ==> r.value == Spread(base, OwnEntries(v).value)
    ensures r.Success? ==> base.Keys <= r.value.Keys
    ensures r.Success? && !v.Obj? ==>
      forall k :: k in base && !AllDigits(k) ==> r.value[k] == base[k]
  {
    match OwnEntries(v)
    case None => Failure(NullOverride)
    case Some(entries) => Success(Spread(base, entries))
  }

  /** The body sent for one item, or the error that aborts the run. */
  function BuildBody(item: ItemParameters, parse: Parser): (r: Result<Body, Error>)
    ensures r == Failure(InvalidCustomJson) <==>
      item.customJson.Text? && parse(item.customJson.text).None?
    ensures r == Failure(NullOverride) <==>
      item.customJson.Text? && parse(item.customJson.text) == Some(Null)
    ensures r.Success? ==>
      BaseBody(item.operation, item.chatId, item.text, item.photo).Keys <= r.value.Keys
  {
    match NormaliseOverride(item.customJson, parse)
    case Failure(e) => Failure(e)
    case Success(v) => MergeOverride(BaseBody(item.operation, item.chatId, item.text, item.photo), v)
  }

  /** No field of a base body is named by a digit string. */
  lemma BaseBodyKeysAreNamed(operation: string, chatId: string, text: string, photo: string)
    ensures NamedKeys(BaseBody(operation, chatId, text, photo))
  {
  }

  /** The guard on the spread changes nothing: the result is the map union. */
  lemma SpreadIsUnion(base: Body, entries: Object)
    ensures Spread(base, entries) == base + entries
  {
  }

  /**
    An object override wins on every key it has, leaves every other base key
    as it was, and adds nothing else.
   */
  lemma ObjectOverrideWins(item: ItemParameters, parse: Parser, fields: Object)
    requires NormaliseOverride(item.customJson, parse) == Success(Obj(fields))
    ensures BuildBody(item, parse).Success?
    ensures var base := BaseBody(item.operation, item.chatId, item.text, item.photo);
      var body := BuildBody(item, parse).value;
      && body.Keys == base.Keys + fields.Keys
      && (forall k :: k in fields ==> body[k] == fields[k])
      && (forall k :: k in base && k !in fields ==> body[k] == base[k])
  {
  }

  /** With the default override `{}` the body is the base body unchanged. */
  lemma DefaultOverrideKeepsBase(item: ItemParameters, parse: Parser)
    requires item.customJson == Text(DefaultCustomJson)
    requires parse(DefaultCustomJson) == Some(Obj(map[]))
    ensures BuildBody(item, parse) == Success(BaseBody(item.operation, item.chatId, item.text, item.photo))
  {
  }

  /** An override given as an object is merged as given: no parse, no error. */
  lemma StructuredOverrideIgnoresParser(item: ItemParameters, parse: Parser, other: Parser)
    requires item.customJson.Structured?
    ensures BuildBody(item, parse) == BuildBody(item, other)
    ensures BuildBody(item, parse) ==
      Success(Spread(BaseBody(item.operation, item.chatId, item.text, item.photo), item.customJson.fields))
  {
  }

  /**
    An override that parses to a boolean or a number has no properties: the
    body is the base body.
   */
  lemma ScalarOverrideKeepsBase(item: ItemParameters, parse: Parser, v: Value)
    requires item.customJson.Text?
    requires parse(item.customJson.text) == Some(v) && (v.Bool? || v.Num?)
    ensures BuildBody(item, parse) == Success(BaseBody(item.operation, item.chatId, item.text, item.photo))
  {
  }

  /**
    Spreading an array or a string adds one property per element or
    character, under its index, and so replaces no field whose name does not
    start with a digit.
   */
  lemma SequenceSpreadKeepsNamedFields(base: Body, v: Value)
    requires NamedKeys(base)
    requires v.Arr? || v.Str?
    ensures MergeOverride(base, v).Success?
    ensures |MergeOverride(base, v).value| == |base| + (if v.Arr? then |v.elems| else |v.s|)
    ensures forall k :: k in base ==> MergeOverride(base, v).value[k] == base[k]
  {
    var entries := OwnEntries(v).value;
    assert base.Keys !! entries.Keys;
    SpreadIsUnion(base, entries);
    assert (base + entries).Keys == base.Keys + entries.Keys;
  }

  /**
    An override that parses to an array or a string can replace none of the
    base body's fields.
   */
  lemma SequenceOverrideKeepsBaseFields(item: ItemParameters, parse: Parser, v: Value)
    requires item.customJson.Text?
    requires parse(item.customJson.text) == Some(v) && (v.Arr? || v.Str?)
    ensures BuildBody(item, parse).Success?
    ensures var base := BaseBody(item.operation, item.chatId, item.text, item.photo);
      var body := BuildBody(item, parse).value;
      && |body| == |base| + (if v.Arr? then |v.elems| else |v.s|)
      && forall k :: k in base ==> body[k] == base[k]
  {
    BaseBodyKeysAreNamed(item.operation, item.chatId, item.text, item.photo);
    SequenceSpreadKeepsNamedFields(BaseBody(item.operation, item.chatId, item.text, item.photo), v);
  }
}
