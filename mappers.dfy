/**
  The three reshapings of the API's answers: a database to `{name, id}`, a page to the 16-field
  competitor record (index.js and the duplicate route of test.js), and a page to the task record
  the enrichment workflow writes into its prompt and e-mail.
 */
module Mappers {
  import opened Wrappers
  import opened JsSemantics
  import opened Notion

  // ---------------------------------------------------------------- database list

  const UntitledDatabase: string := "Sans titre"

  /** One entry of the database list: `{name, id}`. */
  datatype DatabaseEntry = DatabaseEntry(name: string, id: string)

  /**
    `{ name: db.title[0]?.text?.content || 'Sans titre', id: db.id }`. Only `title` itself is read
    without optional chaining, so a database without a `title` array throws.
   */
  function MapDatabase(db: Database): (r: Result<DatabaseEntry, JsError>)
    ensures r.Failure? <==> db.title.None?
    ensures r.Failure? ==> r.error == ReadOfUndefined("0")
    ensures r.Success? ==> r.value.id == db.id && r.value.name != ""
    ensures r.Success? ==>
      var content := FirstItem(db.title.value, false);
      && (IsTruthy(content) ==> r.value.name == content.s)
      && (!IsTruthy(content) ==> r.value.name == UntitledDatabase)
  {
    match db.title
    case None => Failure(ReadOfUndefined("0"))
    case Some(title) => Success(DatabaseEntry(TemplateText(Or(FirstItem(title, false), Str(UntitledDatabase))), db.id))
  }

  /** A database whose title array is empty, or whose first segment has no text, is listed as 'Sans titre'. */
  lemma UntitledDatabaseFallback(db: Database)
    requires db.title.Some?
    requires db.title.value == [] || db.title.value[0].textContent.None? || db.title.value[0].textContent == Some("")
    ensures MapDatabase(db) == Success(DatabaseEntry(UntitledDatabase, db.id))
  {
  }

  // ---------------------------------------------------------------- competitor record

  /** One field of an object literal built by the record mapper: `key: props[property]<path> || null`. */
  datatype FieldSpec = FieldSpec(key: string, property: string, path: Path)

  /** One member of the resulting JSON object, in the order the literal lists it. */
  datatype Member = Member(key: string, value: JsValue)

  /** The 16 fields of the record mapper of index.js. */
  const IndexRecordFields: seq<FieldSpec> := [
    FieldSpec("identifiant", "Identifiant", UniqueIdNumber),
    FieldSpec("nom_concurrent", "Nom du concurrent", TitlePlainText),
    FieldSpec("services_offerts", "Services offerts", RichTextPlainText),
    FieldSpec("forces", "Forces", RichTextPlainText),
    FieldSpec("faiblesses", "Faiblesses", RichTextPlainText),
    FieldSpec("opportunites_diff", "Opportunités de différenciation pour YAPA", RichTextPlainText),
    FieldSpec("technologies_utilisees", "Technologies utilisées", RichTextPlainText),
    FieldSpec("url_source", "URL/Source", UrlString),
    FieldSpec("notes_supplementaires", "Notes supplémentaires", SelectObject),
    FieldSpec("recherche_concurrents", "Recherche des concurrents", RichTextPlainText),
    FieldSpec("analyse_fonctionnalites", "Analyse des fonctionnalités", RichTextPlainText),
    FieldSpec("differenciation", "Différenciation", RichTextPlainText),
    FieldSpec("competitor_status", "Competitor Status", StatusName),
    FieldSpec("titre", "Titre", RichTextPlainText),
    FieldSpec("content", "Content", RichTextPlainText),
    FieldSpec("last_updated", "Last Updated", DateStart)
  ]

  /** Position of `competitor_status` and of `notes_supplementaires` in both field lists. */
  const StatusField: nat := 12
  const NotesField: nat := 8

  /** The same mapper in test.js, which reads the competitor status through `select` instead of `status`. */
  const TestRecordFields: seq<FieldSpec> :=
    IndexRecordFields[StatusField := FieldSpec("competitor_status", "Competitor Status", SelectName)]

  /** What the record mapper can put in a field: `null`, or a truthy value of the kind its path reads. */
  predicate Storable(path: Path, v: JsValue) {
    match path
    case UniqueIdNumber => v == Null || (v.Num? && v.n != 0)
    case SelectObject => v == Null || v.Obj?
    case _ => v == Null || (v.Str? && v.s != "")
  }

  /**
    `result.properties` mapped through `fields`, each as `props[property]<path> || null`. The first
    field reads `props[...]` on `undefined` when the page has no `properties`, which throws;
    otherwise every field is `null` exactly when its read is falsy, and the read value when not.
   */
  function MapRecord(page: Page, fields: seq<FieldSpec>): (r: Result<seq<Member>, JsError>)
    ensures r.Failure? <==> page.properties.None? && fields != []
    ensures r.Failure? ==> r.error == ReadOfUndefined(fields[0].property)
    ensures r.Success? ==> |r.value| == |fields|
    ensures r.Success? ==> forall i :: 0 <= i < |fields| ==>
      r.value[i].key == fields[i].key && Storable(fields[i].path, r.value[i].value)
    ensures r.Success? && page.properties.Some? ==> forall i :: 0 <= i < |fields| ==>
      var read := Read(page.properties.value, fields[i].property, fields[i].path);
      && (r.value[i].value == Null <==> !IsTruthy(read))
      && (r.value[i].value != Null ==> r.value[i].value == read)
  {
    match page.properties
    case None => if fields == [] then Success([]) else Failure(ReadOfUndefined(fields[0].property))
    case Some(props) =>
      Success(seq(|fields|, i requires 0 <= i < |fields| =>
        Member(fields[i].key, Or(Read(props, fields[i].property, fields[i].path), Null))))
  }

  /** A field whose property is missing from the page is `null`; the mapper does not fail on it. */
  lemma MissingPropertyIsNull(page: Page, fields: seq<FieldSpec>, i: nat)
    requires page.properties.Some? && i < |fields| && fields[i].property !in page.properties.value
    ensures MapRecord(page, fields).Success? && MapRecord(page, fields).value[i] == Member(fields[i].key, Null)
  {
  }

  /** A rich-text or title property with no segment, or whose first segment is empty, maps to `null`, not `""`. */
  lemma EmptyTextIsNull(page: Page, fields: seq<FieldSpec>, i: nat, items: seq<RichTextItem>)
    requires page.properties.Some? && i < |fields|
    requires fields[i].path == RichTextPlainText || fields[i].path == TitlePlainText
    requires fields[i].property in page.properties.value
    requires page.properties.value[fields[i].property] in {RichTextValue(items), TitleValue(items)}
    requires items == [] || items[0].plainText in {None, Some("")}
    ensures MapRecord(page, fields).Success? && MapRecord(page, fields).value[i].value == Null
  {
  }

  /**
    index.js and test.js disagree on `competitor_status` whenever the page stores it as a select:
    index.js reads `status.name` and gives `null`, test.js reads `select.name` and gives the name.
    A status-typed property gives the reverse.
   */
  lemma StatusReadDiffers(page: Page, option: SelectOption)
    requires page.properties.Some? && option.name != ""
    requires "Competitor Status" in page.properties.value
    requires page.properties.value["Competitor Status"] in {SelectValue(Some(option)), StatusValue(Some(option))}
    ensures MapRecord(page, IndexRecordFields).Success? && MapRecord(page, TestRecordFields).Success?
    ensures var index := MapRecord(page, IndexRecordFields).value[StatusField].value;
            var test := MapRecord(page, TestRecordFields).value[StatusField].value;
            if page.properties.value["Competitor Status"].SelectValue? then index == Null && test == Str(option.name)
            else index == Str(option.name) && test == Null
  {
    var props := page.properties.value;
    assert IndexRecordFields[StatusField] == FieldSpec("competitor_status", "Competitor Status", StatusName);
    assert TestRecordFields[StatusField] == FieldSpec("competitor_status", "Competitor Status", SelectName);
  }

  /** `notes_supplementaires` is the whole select option object, not its name. */
  lemma NotesIsWholeOption(page: Page, fields: seq<FieldSpec>, option: SelectOption)
    requires fields == IndexRecordFields || fields == TestRecordFields
    requires page.properties.Some? && "Notes supplémentaires" in page.properties.value
    requires page.properties.value["Notes supplémentaires"] == SelectValue(Some(option))
    ensures MapRecord(page, fields).Success? && MapRecord(page, fields).value[NotesField] == Member("notes_supplementaires", Obj(option))
  {
    assert fields[NotesField] == FieldSpec("notes_supplementaires", "Notes supplémentaires", SelectObject);
  }

  /** How the API would store `v` in a property that `path` reads back. */
  function PropertyFor(path: Path, v: JsValue): PropertyValue {
    match path
    case TitlePlainText => TitleValue(if v.Str? then [RichTextItem(Some(v.s), Some(v.s))] else [])
    case RichTextPlainText => RichTextValue(if v.Str? then [RichTextItem(Some(v.s), Some(v.s))] else [])
    case SelectName => SelectValue(if v.Str? then Some(SelectOption(v.s, v.s, "default")) else None)
    case StatusName => StatusValue(if v.Str? then Some(SelectOption(v.s, v.s, "default")) else None)
    case SelectObject => SelectValue(if v.Obj? then Some(v.option) else None)
    case UrlString => UrlValue(if v.Str? then Some(v.s) else None)
    case DateStart => DateProperty(if v.Str? then Some(DateValue(v.s, None)) else None)
    case UniqueIdNumber => UniqueIdValue(if v.Num? then Some(v.n) else None, None)
  }

  /** The property bag that stores `values[i]` under `fields[i].property`, later fields overriding earlier ones. */
  function Encode(fields: seq<FieldSpec>, values: seq<JsValue>): PropertyBag
    requires |values| == |fields|
  {
    if fields == [] then map[]
    else
      var n := |fields| - 1;
      Encode(fields[..n], values[..n])[fields[n].property := PropertyFor(fields[n].path, values[n])]
  }

  predicate DistinctProperties(fields: seq<FieldSpec>) {
    forall i, j :: 0 <= i < j < |fields| ==> fields[i].property != fields[j].property
  }

  lemma {:induction false} EncodeLookup(fields: seq<FieldSpec>, values: seq<JsValue>, i: nat)
    requires |values| == |fields| && DistinctProperties(fields) && i < |fields|
    ensures fields[i].property in Encode(fields, values)
    ensures Encode(fields, values)[fields[i].property] == PropertyFor(fields[i].path, values[i])
  {
    var n := |fields| - 1;
    if i < n {
      EncodeLookup(fields[..n], values[..n], i);
    }
  }

  /**
    The record mapper inverts `Encode`: storing a record whose every field is storable and mapping
    the page back yields that record. With the storability of every output this says the mapper's
    image is exactly the storable records.
   */
  lemma RecordRoundTrip(id: string, fields: seq<FieldSpec>, values: seq<JsValue>)
    requires |values| == |fields| && DistinctProperties(fields)
    requires forall i :: 0 <= i < |fields| ==> Storable(fields[i].path, values[i])
    ensures MapRecord(Page(id, Some(Encode(fields, values))), fields)
         == Success(seq(|fields|, i requires 0 <= i < |fields| => Member(fields[i].key, values[i])))
  {
    var props := Encode(fields, values);
    var expected := seq(|fields|, i requires 0 <= i < |fields| => Member(fields[i].key, values[i]));
    var r := MapRecord(Page(id, Some(props)), fields).value;
    forall i | 0 <= i < |fields|
      ensures r[i] == expected[i]
    {
      EncodeLookup(fields, values, i);
      ReadStored(props, fields[i].property, fields[i].path, values[i]);
    }
    assert r == expected;
  }

  /** Reading back a storable value through the property that stores it gives the value. */
  lemma ReadStored(props: PropertyBag, name: string, path: Path, v: JsValue)
    requires name in props && props[name] == PropertyFor(path, v) && Storable(path, v)
    ensures Or(Read(props, name, path), Null) == v
  {
  }

  /** Neither mapper's table names a property twice, so the round trip applies to both. */
  lemma RecordTablesDistinct()
    ensures DistinctProperties(IndexRecordFields) && DistinctProperties(TestRecordFields)
  {
    IndexTableDistinct();
    assert forall i :: 0 <= i < |TestRecordFields| ==> TestRecordFields[i].property == IndexRecordFields[i].property;
  }

  lemma IndexTableDistinct()
    ensures DistinctProperties(IndexRecordFields)
  {
  }

  // ---------------------------------------------------------------- task record

  const NoIdentifier: string := "Non défini"
  const NoTitle: string := "Sans Titre"
  const NoUrl: string := "Non disponible"
  const NoDate: string := "Pas de date"
  const NoContent: string := "Pas de contenu"

  /** The record the enrichment workflow works on; its text fields may hold placeholders. */
  datatype TaskRecord = TaskRecord(
    id: string,
    identifiant: JsValue,
    titre: JsValue,
    url: JsValue,
    date: JsValue,
    content: JsValue,
    competitorStatus: JsValue)

  /**
    The task mapper: each field read as in the record mapper but with a placeholder fallback
    (`null` for the status), the page id copied as is. A page without `properties` throws.
   */
  function MapTask(page: Page): (r: Result<TaskRecord, JsError>)
    ensures r.Failure? <==> page.properties.None?
    ensures r.Failure? ==> r.error == ReadOfUndefined("Identifiant")
    ensures r.Success? ==> r.value.id == page.id
    ensures r.Success? ==>
      && (r.value.identifiant.Num? || r.value.identifiant == Str(NoIdentifier))
      && r.value.titre.Str? && r.value.url.Str? && r.value.date.Str? && r.value.content.Str?
      && IsTruthy(r.value.identifiant) && IsTruthy(r.value.titre) && IsTruthy(r.value.url)
      && IsTruthy(r.value.date) && IsTruthy(r.value.content)
      && (r.value.competitorStatus == Null || (r.value.competitorStatus.Str? && IsTruthy(r.value.competitorStatus)))
  {
    match page.properties
    case None => Failure(ReadOfUndefined("Identifiant"))
    case Some(props) =>
      Success(TaskRecord(
        page.id,
        Or(Read(props, "Identifiant", UniqueIdNumber), Str(NoIdentifier)),
        Or(Read(props, "Titre", RichTextPlainText), Str(NoTitle)),
        Or(Read(props, "URL/Source", UrlString), Str(NoUrl)),
        Or(Read(props, "Date de publication", DateStart), Str(NoDate)),
        Or(Read(props, "Content", RichTextPlainText), Str(NoContent)),
        Or(Read(props, "Competitor Status", SelectName), Null)))
  }

  /**
    The placeholders of the task record: 'Non défini', 'Sans Titre', 'Non disponible',
    'Pas de date' (read from "Date de publication") and 'Pas de contenu', and `null` for the status,
    each taken exactly when the property read is falsy.
   */
  lemma TaskPlaceholders(page: Page)
    requires page.properties.Some?
    ensures var props := page.properties.value;
      var t := MapTask(page).value;
      && t.identifiant == Or(Read(props, "Identifiant", UniqueIdNumber), Str(NoIdentifier))
      && t.titre == Or(Read(props, "Titre", RichTextPlainText), Str(NoTitle))
      && t.url == Or(Read(props, "URL/Source", UrlString), Str(NoUrl))
      && t.date == Or(Read(props, "Date de publication", DateStart), Str(NoDate))
      && t.content == Or(Read(props, "Content", RichTextPlainText), Str(NoContent))
      && t.competitorStatus == Or(Read(props, "Competitor Status", SelectName), Null)
  {
  }
}
