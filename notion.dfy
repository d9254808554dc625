/**
  The shapes the document-database (Notion) API answers with, as far as the handlers read them,
  and the optional-chaining reads the mappers perform on them.
 */
module Notion {
  import opened Wrappers
  import opened JsSemantics

  /** One rich-text segment: its `plain_text` and its `text.content`, either of which may be missing. */
  datatype RichTextItem = RichTextItem(plainText: Option<string>, textContent: Option<string>)

  /** The `start` of a date property (its `end` is never read). */
  datatype DateValue = DateValue(start: string, end: Option<string>)

  /**
    A property value, tagged by its type. A select, status, url, date or unique-id number may be
    `null` in the API's answer (`None` here); other property types are never read by the mappers.
   */
  datatype PropertyValue =
    | TitleValue(title: seq<RichTextItem>)
    | RichTextValue(richText: seq<RichTextItem>)
    | SelectValue(select: Option<SelectOption>)
    | StatusValue(status: Option<SelectOption>)
    | UrlValue(url: Option<string>)
    | DateProperty(date: Option<DateValue>)
    | UniqueIdValue(number: Option<int>, prefix: Option<string>)
    | OtherValue(kind: string)

  /** A page's `properties`: property name to value; a name not in the map is an absent property. */
  type PropertyBag = map<string, PropertyValue>

  /** A database row; `properties` is `None` when the answer lacks it. */
  datatype Page = Page(id: string, properties: Option<PropertyBag>)

  /** A database as listed by the search endpoint; `title` is `None` when the answer lacks it. */
  datatype Database = Database(id: string, title: Option<seq<RichTextItem>>)

  /** An HTTP answer: `response.data`, whose `results` may be missing. */
  datatype ResponseData<T> = ResponseData(results: Option<seq<T>>)
  datatype Reply<T> = Reply(data: Option<ResponseData<T>>)

  /** The access paths the mappers apply to one property. */
  datatype Path =
    | TitlePlainText     // ?.title?.[0]?.plain_text
    | RichTextPlainText  // ?.rich_text?.[0]?.plain_text
    | SelectName         // ?.select?.name
    | StatusName         // ?.status?.name
    | SelectObject       // ?.select
    | UrlString          // ?.url
    | DateStart          // ?.date?.start
    | UniqueIdNumber     // ?.unique_id?.number

  /** `items?.[0]?.<field>` on an array that is present. */
  function FirstItem(items: seq<RichTextItem>, plain: bool): (v: JsValue)
    ensures v == Undefined || v.Str?
    ensures items == [] ==> v == Undefined
  {
    if items == [] then Undefined
    else
      var field := if plain then items[0].plainText else items[0].textContent;
      if field.Some? then Str(field.value) else Undefined
  }

  /** `option?.name` for an option that may be `null`: `null?.name` is `undefined`. */
  function OptionName(option: Option<SelectOption>): (v: JsValue)
    ensures v == Undefined || v.Str?
  {
    if option.Some? then Str(option.value.name) else Undefined
  }

  /**
    `props[name]` followed by the optional chain `path`. An absent property, a property of
    another type, or a missing step anywhere along the chain reads as `undefined`; a field the
    API set to `null` reads as `null`.
   */
  function Read(props: PropertyBag, name: string, path: Path): (v: JsValue)
    ensures name !in props ==> v == Undefined
    ensures v.Num? ==> path == UniqueIdNumber && name in props && props[name].UniqueIdValue?
    ensures v.Obj? ==> path == SelectObject && name in props && props[name] == SelectValue(Some(v.option))
    ensures v.Str? ==> path != UniqueIdNumber && path != SelectObject && name in props
    ensures v == Null ==> path in {SelectObject, UrlString, UniqueIdNumber}
    ensures name in props && !ReadsType(path, props[name]) ==> v == Undefined
    // Text: the first segment's `plain_text`, whatever follows it.
    ensures path == TitlePlainText && name in props && props[name].TitleValue? ==>
      var items := props[name].title;
      v == if items != [] && items[0].plainText.Some? then Str(items[0].plainText.value) else Undefined
    ensures path == RichTextPlainText && name in props && props[name].RichTextValue? ==>
      var items := props[name].richText;
      v == if items != [] && items[0].plainText.Some? then Str(items[0].plainText.value) else Undefined
    // Select and status: the option's `name`; `null` reads on as `undefined`.
    ensures path == SelectName && name in props && props[name].SelectValue? ==>
      v == if props[name].select.Some? then Str(props[name].select.value.name) else Undefined
    ensures path == StatusName && name in props && props[name].StatusValue? ==>
      v == if props[name].status.Some? then Str(props[name].status.value.name) else Undefined
    // The whole option, the url, the date's `start` and the unique id's `number`, `null` kept as is.
    ensures path == SelectObject && name in props && props[name].SelectValue? ==>
      v == if props[name].select.Some? then Obj(props[name].select.value) else Null
    ensures path == UrlString && name in props && props[name].UrlValue? ==>
      v == if props[name].url.Some? then Str(props[name].url.value) else Null
    ensures path == DateStart && name in props && props[name].DateProperty? ==>
      v == if props[name].date.Some? then Str(props[name].date.value.start) else Undefined
    ensures path == UniqueIdNumber && name in props && props[name].UniqueIdValue? ==>
      v == if props[name].number.Some? then Num(props[name].number.value) else Null
  {
    if name !in props then Undefined
    else
      var p := props[name];
      match path
      case TitlePlainText => if p.TitleValue? then FirstItem(p.title, true) else Undefined
      case RichTextPlainText => if p.RichTextValue? then FirstItem(p.richText, true) else Undefined
      case SelectName => if p.SelectValue? then OptionName(p.select) else Undefined
      case StatusName => if p.StatusValue? then OptionName(p.status) else Undefined
      case SelectObject =>
        if !p.SelectValue? then Undefined
        else if p.select.Some? then Obj(p.select.value) else Null
      case UrlString =>
        if !p.UrlValue? then Undefined
        else if p.url.Some? then Str(p.url.value) else Null
      case DateStart =>
        if p.DateProperty? && p.date.Some? then Str(p.date.value.start) else Undefined
      case UniqueIdNumber =>
        if !p.UniqueIdValue? then Undefined
        else if p.number.Some? then Num(p.number.value) else Null
  }

  /** The property type a path reads through; any other type reads as `undefined`. */
  predicate ReadsType(path: Path, p: PropertyValue) {
    match path
    case TitlePlainText => p.TitleValue?
    case RichTextPlainText => p.RichTextValue?
    case SelectName => p.SelectValue?
    case StatusName => p.StatusValue?
    case SelectObject => p.SelectValue?
    case UrlString => p.UrlValue?
    case DateStart => p.DateProperty?
    case UniqueIdNumber => p.UniqueIdValue?
  }

  /** Only the first segment of a title or rich text is read: the segments after it never change the value. */
  lemma OnlyFirstSegmentRead(props: PropertyBag, name: string, first: RichTextItem, rest: seq<RichTextItem>)
    ensures Read(props[name := TitleValue([first] + rest)], name, TitlePlainText)
         == Read(props[name := TitleValue([first])], name, TitlePlainText)
    ensures Read(props[name := RichTextValue([first] + rest)], name, RichTextPlainText)
         == Read(props[name := RichTextValue([first])], name, RichTextPlainText)
  {
    assert ([first] + rest)[0] == first;
  }

  /**
    `response.data.results`, unless `!response.data || !response.data.results` holds, in which
    case the handler throws `new Error(malformed)`. An error of the request itself passes through.
    (An array is truthy even when empty, so an empty `results` is accepted.)
   */
  function ResultsOf<T>(reply: Result<Reply<T>, JsError>, malformed: string): (r: Result<seq<T>, JsError>)
    ensures r.Success? <==> reply.Success? && reply.value.data.Some? && reply.value.data.value.results.Some?
    ensures r.Success? ==> r.value == reply.value.data.value.results.value
    ensures reply.Failure? ==> r == Failure(reply.error)
    ensures reply.Success? && r.Failure? ==> r.error == JsError(malformed)
  {
    match reply
    case Failure(e) => Failure(e)
    case Success(response) =>
      if response.data.None? || response.data.value.results.None? then Failure(JsError(malformed))
      else Success(response.data.value.results.value)
  }
}
