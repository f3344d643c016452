/** The records the client builds from decoded JSON. The Readwise accessors
    read every field by name (`h["id"]`), so extra keys are ignored and a
    missing one raises KeyError; the export and the daily review unpack a
    whole dict into a dataclass (`ReadwiseTag(**tag)`), so an unknown or a
    missing keyword raises TypeError. Field values other than timestamps
    and tag lists are passed through as the server sent them. */
module Records {
  import opened Common
  import opened Json

  // --- decoding steps shared by every record

  /** `datetime.fromisoformat(v) if v else None` for a value `v` already
      read: a falsy value gives None; a non-empty string the time it
      denotes; any other truthy value the TypeError `fromisoformat` raises
      on a non-string. */
  function OptionalTime(v: Json): (r: Result<Option<DateTime>>)
    ensures r == Ok(None) <==> !Truthy(v)
    ensures r.Ok? && r.value.Some? ==> v == JStr(r.value.value.iso) && r.value.value.iso != ""
    ensures r.Err? <==> Truthy(v) && !v.JStr?
    ensures r.Err? ==> r.error == TypeError
  {
    if !Truthy(v) then Ok(None)
    else if v.JStr? then Ok(Some(DateTime(v.s)))
    else Err(TypeError)
  }

  /** `datetime.fromisoformat(v)` with no falsiness test: the empty string
      raises ValueError and a non-string TypeError. */
  function RequiredTime(v: Json): (r: Result<DateTime>)
    ensures r.Ok? <==> v.JStr? && v.s != ""
    ensures r.Ok? ==> v == JStr(r.value.iso)
    ensures r.Err? ==> r.error == (if v.JStr? then ValueError else TypeError)
  {
    match v
    case JStr(s) => if s == "" then Err(ValueError) else Ok(DateTime(s))
    case _ => Err(TypeError)
  }

  /** A timestamp as the server sends it: ISO text, or null when unset. */
  function TimeJson(t: Option<DateTime>): Json {
    if t.Some? then JStr(t.value.iso) else JNull
  }

  /** A time `fromisoformat` can have produced has non-empty text. */
  predicate ValidTime(t: Option<DateTime>) {
    t.Some? ==> t.value.iso != ""
  }

  lemma OptionalTimeRoundTrip(t: Option<DateTime>)
    requires ValidTime(t)
    ensures OptionalTime(TimeJson(t)) == Ok(t)
  {
  }

  /** A list comprehension `[decode(x) for x in items]`: every item decoded,
      or the first failure. */
  function MapAll<T>(items: seq<Json>, decode: Json -> Result<T>): (r: Result<seq<T>>)
    ensures r.Ok? <==> forall i | 0 <= i < |items| :: decode(items[i]).Ok?
    ensures r.Ok? ==> |r.value| == |items| && forall i | 0 <= i < |items| :: decode(items[i]) == Ok(r.value[i])
    decreases |items|
  {
    if items == [] then Ok([])
    else
      var x :- decode(items[0]);
      var rest :- MapAll(items[1..], decode);
      assert forall i | 1 <= i < |items| :: items[i] == items[1..][i - 1];
      Ok([x] + rest)
  }

  /** The comprehension raises what the first item that fails raises. */
  lemma {:induction false} MapAllFirstError<T>(items: seq<Json>, decode: Json -> Result<T>, k: nat)
    requires k < |items| && decode(items[k]).Err?
    requires forall i | 0 <= i < k :: decode(items[i]).Ok?
    ensures MapAll(items, decode) == Err(decode(items[k]).error)
    decreases k
  {
    if k > 0 {
      MapAllFirstError(items[1..], decode, k - 1);
    }
  }

  // --- tags

  datatype Tag = Tag(id: Json, name: Json)

  /** A tag as the server sends it. */
  function TagJson(t: Tag): Json {
    JObject(map["id" := t.id, "name" := t.name])
  }

  /** `ReadwiseTag(id=tag["id"], name=tag["name"])`: a dict with both keys,
      whatever else it holds; the first missing key raises KeyError and a
      value that is not a dict TypeError. */
  function TagOf(j: Json): (r: Result<Tag>)
    ensures !j.JObject? ==> r == Err(TypeError)
    ensures j.JObject? && "id" !in j.fields ==> r == Err(KeyError("id"))
    ensures j.JObject? && "id" in j.fields && "name" !in j.fields ==> r == Err(KeyError("name"))
    ensures r.Ok? ==> j.JObject? && TagJson(r.value) == JObject(map k | k in j.fields && k in {"id", "name"} :: j.fields[k])
  {
    var id :- Index(j, "id");
    var name :- Index(j, "name");
    var t := Tag(id, name);
    assert TagJson(t).fields == map k | k in j.fields && k in {"id", "name"} :: j.fields[k];
    Ok(t)
  }

  /** `ReadwiseTag(**tag)`: a dict whose keys are exactly the two fields;
      anything else raises TypeError. */
  function TagFromKeywords(j: Json): (r: Result<Tag>)
    ensures r.Ok? <==> j.JObject? && j.fields.Keys == {"id", "name"}
    ensures r.Ok? ==> TagJson(r.value) == j
  {
    if j.JObject? && j.fields.Keys == {"id", "name"} then
      var t := Tag(j.fields["id"], j.fields["name"]);
      assert TagJson(t).fields == j.fields;
      Ok(t)
    else Err(TypeError)
  }

  /** Both ways of building a tag read back what the server sent. */
  lemma TagRoundTrip(t: Tag)
    ensures TagOf(TagJson(t)) == Ok(t)
    ensures TagFromKeywords(TagJson(t)) == Ok(t)
  {
    assert TagJson(t).fields.Keys == {"id", "name"};
  }

  /** Where unpacking accepts a tag, reading it field by field builds the
      same tag; reading field by field also accepts tags with extra keys,
      which unpacking refuses. */
  lemma TagKeywordsAgree(j: Json, extra: string, v: Json)
    requires TagFromKeywords(j).Ok?
    requires extra != "id" && extra != "name"
    ensures TagOf(j) == TagFromKeywords(j)
    ensures TagOf(JObject(j.fields[extra := v])) == TagOf(j)
    ensures TagFromKeywords(JObject(j.fields[extra := v])) == Err(TypeError)
  {
    assert extra in j.fields[extra := v].Keys;
  }

  /** `[ReadwiseTag(id=tag["id"], name=tag["name"]) for tag in v]`. */
  function TagsOf(v: Json): (r: Result<seq<Tag>>)
    ensures v.JList? && (forall i | 0 <= i < |v.items| :: TagOf(v.items[i]).Ok?) ==> r.Ok? && |r.value| == |v.items|
  {
    var items :- Elements(v);
    MapAll(items, TagOf)
  }

  /** `[ReadwiseTag(**tag) for tag in v]`. */
  function TagsFromKeywords(v: Json): (r: Result<seq<Tag>>)
    ensures v.JList? && (forall i | 0 <= i < |v.items| :: TagFromKeywords(v.items[i]).Ok?) ==> r.Ok? && |r.value| == |v.items|
  {
    var items :- Elements(v);
    MapAll(items, TagFromKeywords)
  }

  /** A list of tags as the server sends it. */
  function TagsJson(tags: seq<Tag>): (j: Json)
    ensures j.JList? && |j.items| == |tags|
    ensures forall i | 0 <= i < |tags| :: j.items[i] == TagJson(tags[i])
  {
    JList(seq(|tags|, i requires 0 <= i < |tags| => TagJson(tags[i])))
  }

  lemma TagsRoundTrip(tags: seq<Tag>)
    ensures TagsOf(TagsJson(tags)) == Ok(tags)
    ensures TagsFromKeywords(TagsJson(tags)) == Ok(tags)
  {
    var j := TagsJson(tags);
    forall i | 0 <= i < |tags|
      ensures TagOf(j.items[i]) == Ok(tags[i]) && TagFromKeywords(j.items[i]) == Ok(tags[i])
    {
      TagRoundTrip(tags[i]);
    }
    var r, k := MapAll(j.items, TagOf), MapAll(j.items, TagFromKeywords);
    assert r.Ok? && r.value == tags;
    assert k.Ok? && k.value == tags;
  }

  // --- highlights of get_highlights and get_book_highlights

  datatype Highlight = Highlight(id: Json, text: Json, note: Json, location: Json, locationType: Json,
                                 highlightedAt: Option<DateTime>, url: Json, color: Json,
                                 updated: Option<DateTime>, bookId: Json, tags: seq<Tag>)

  /** The dict `f` holds every key a highlight is read by, and reading them
      gives `x`: the plain fields as they are, the timestamps parsed when
      truthy, the tags read field by field. Other keys play no part. */
  predicate HighlightReads(f: map<string, Json>, x: Highlight) {
    && "id" in f && f["id"] == x.id
    && "text" in f && f["text"] == x.text
    && "note" in f && f["note"] == x.note
    && "location" in f && f["location"] == x.location
    && "location_type" in f && f["location_type"] == x.locationType
    && "highlighted_at" in f && OptionalTime(f["highlighted_at"]) == Ok(x.highlightedAt)
    && "url" in f && f["url"] == x.url
    && "color" in f && f["color"] == x.color
    && "updated" in f && OptionalTime(f["updated"]) == Ok(x.updated)
    && "book_id" in f && f["book_id"] == x.bookId
    && "tags" in f && TagsOf(f["tags"]) == Ok(x.tags)
  }

  /** The `ReadwiseHighlight(...)` call of readwise/api.py:341-360, each key
      read in the order the call reads it. */
  function HighlightOf(h: Json): (r: Result<Highlight>)
    ensures !h.JObject? ==> r == Err(TypeError)
    ensures h.JObject? && "id" !in h.fields ==> r == Err(KeyError("id"))
    ensures r.Ok? ==> h.JObject? && HighlightReads(h.fields, r.value)
  {
    var id :- Index(h, "id");
    var text :- Index(h, "text");
    var note :- Index(h, "note");
    var location :- Index(h, "location");
    var locationType :- Index(h, "location_type");
    var highlightedAtText :- Index(h, "highlighted_at");
    var highlightedAt :- OptionalTime(highlightedAtText);
    var url :- Index(h, "url");
    var color :- Index(h, "color");
    var updatedText :- Index(h, "updated");
    var updated :- OptionalTime(updatedText);
    var bookId :- Index(h, "book_id");
    var tags :- Index(h, "tags");
    var tagList :- TagsOf(tags);
    Ok(Highlight(id, text, note, location, locationType, highlightedAt, url, color, updated, bookId, tagList))
  }

  /** Every dict that reads as a highlight is decoded to it: with the
      postcondition of HighlightOf, decoding succeeds with `x` exactly when
      the dict reads as `x`. */
  lemma HighlightOfReads(f: map<string, Json>, x: Highlight)
    requires HighlightReads(f, x)
    ensures HighlightOf(JObject(f)) == Ok(x)
  {
  }

  // --- books of get_books

  datatype Book = Book(id: Json, title: Json, author: Json, category: Json, source: Json, numHighlights: Json,
                       lastHighlightAt: Option<DateTime>, updated: Option<DateTime>, coverImageUrl: Json,
                       highlightsUrl: Json, sourceUrl: Json, asin: Json, tags: seq<Tag>, documentNote: Json)

  /** The dict `f` holds every key a book is read by, and reading them gives
      `b`. */
  predicate BookReads(f: map<string, Json>, b: Book) {
    && "id" in f && f["id"] == b.id
    && "title" in f && f["title"] == b.title
    && "author" in f && f["author"] == b.author
    && "category" in f && f["category"] == b.category
    && "source" in f && f["source"] == b.source
    && "num_highlights" in f && f["num_highlights"] == b.numHighlights
    && "last_highlight_at" in f && OptionalTime(f["last_highlight_at"]) == Ok(b.lastHighlightAt)
    && "updated" in f && OptionalTime(f["updated"]) == Ok(b.updated)
    && "cover_image_url" in f && f["cover_image_url"] == b.coverImageUrl
    && "highlights_url" in f && f["highlights_url"] == b.highlightsUrl
    && "source_url" in f && f["source_url"] == b.sourceUrl
    && "asin" in f && f["asin"] == b.asin
    && "tags" in f && TagsOf(f["tags"]) == Ok(b.tags)
    && "document_note" in f && f["document_note"] == b.documentNote
  }

  /** The `ReadwiseBook(...)` call of readwise/api.py:379-401. */
  function BookOf(b: Json): (r: Result<Book>)
    ensures !b.JObject? ==> r == Err(TypeError)
    ensures b.JObject? && "id" !in b.fields ==> r == Err(KeyError("id"))
    ensures r.Ok? ==> b.JObject? && BookReads(b.fields, r.value)
  {
    var id :- Index(b, "id");
    var title :- Index(b, "title");
    var author :- Index(b, "author");
    var category :- Index(b, "category");
    var source :- Index(b, "source");
    var numHighlights :- Index(b, "num_highlights");
    var lastHighlightAtText :- Index(b, "last_highlight_at");
    var lastHighlightAt :- OptionalTime(lastHighlightAtText);
    var updatedText :- Index(b, "updated");
    var updated :- OptionalTime(updatedText);
    var coverImageUrl :- Index(b, "cover_image_url");
    var highlightsUrl :- Index(b, "highlights_url");
    var sourceUrl :- Index(b, "source_url");
    var asin :- Index(b, "asin");
    var tags :- Index(b, "tags");
    var tagList :- TagsOf(tags);
    var documentNote :- Index(b, "document_note");
    Ok(Book(id, title, author, category, source, numHighlights, lastHighlightAt, updated, coverImageUrl,
            highlightsUrl, sourceUrl, asin, tagList, documentNote))
  }

  /** Decoding succeeds with `b` exactly when the dict reads as `b`. */
  lemma BookOfReads(f: map<string, Json>, b: Book)
    requires BookReads(f, b)
    ensures BookOf(JObject(f)) == Ok(b)
  {
  }

  // --- documents of get_documents (the Reader client)

  datatype Document = Document(id: Json, url: Json, sourceUrl: Json, title: Json, author: Json, source: Json,
                               category: Json, location: Json, tags: Json, siteName: Json, wordCount: Json,
                               createdAt: DateTime, updatedAt: DateTime, notes: Json, publishedDate: Json,
                               summary: Json, imageUrl: Json, parentId: Json, readingProgress: Json)

  /** The dict `f` holds every key a document is read by, and reading them
      gives `d`; both timestamps must parse. */
  predicate DocumentReads(f: map<string, Json>, d: Document) {
    && "id" in f && f["id"] == d.id
    && "url" in f && f["url"] == d.url
    && "source_url" in f && f["source_url"] == d.sourceUrl
    && "title" in f && f["title"] == d.title
    && "author" in f && f["author"] == d.author
    && "source" in f && f["source"] == d.source
    && "category" in f && f["category"] == d.category
    && "location" in f && f["location"] == d.location
    && "tags" in f && f["tags"] == d.tags
    && "site_name" in f && f["site_name"] == d.siteName
    && "word_count" in f && f["word_count"] == d.wordCount
    && "created_at" in f && RequiredTime(f["created_at"]) == Ok(d.createdAt)
    && "updated_at" in f && RequiredTime(f["updated_at"]) == Ok(d.updatedAt)
    && "notes" in f && f["notes"] == d.notes
    && "published_date" in f && f["published_date"] == d.publishedDate
    && "summary" in f && f["summary"] == d.summary
    && "image_url" in f && f["image_url"] == d.imageUrl
    && "parent_id" in f && f["parent_id"] == d.parentId
    && "reading_progress" in f && f["reading_progress"] == d.readingProgress
  }

  /** The `ReadwiseReaderDocument(...)` call of readwise/api.py:746-766: both
      timestamps are parsed unconditionally, so an empty one fails the
      document. */
  function DocumentOf(d: Json): (r: Result<Document>)
    ensures !d.JObject? ==> r == Err(TypeError)
    ensures d.JObject? && "id" !in d.fields ==> r == Err(KeyError("id"))
    ensures r.Ok? ==> d.JObject? && DocumentReads(d.fields, r.value)
  {
    var id :- Index(d, "id");
    var url :- Index(d, "url");
    var sourceUrl :- Index(d, "source_url");
    var title :- Index(d, "title");
    var author :- Index(d, "author");
    var source :- Index(d, "source");
    var category :- Index(d, "category");
    var location :- Index(d, "location");
    var tags :- Index(d, "tags");
    var siteName :- Index(d, "site_name");
    var wordCount :- Index(d, "word_count");
    var createdAtText :- Index(d, "created_at");
    var createdAt :- RequiredTime(createdAtText);
    var updatedAtText :- Index(d, "updated_at");
    var updatedAt :- RequiredTime(updatedAtText);
    var notes :- Index(d, "notes");
    var publishedDate :- Index(d, "published_date");
    var summary :- Index(d, "summary");
    var imageUrl :- Index(d, "image_url");
    var parentId :- Index(d, "parent_id");
    var readingProgress :- Index(d, "reading_progress");
    Ok(Document(id, url, sourceUrl, title, author, source, category, location, tags, siteName, wordCount,
                createdAt, updatedAt, notes, publishedDate, summary, imageUrl, parentId, readingProgress))
  }

  /** Decoding succeeds with `d` exactly when the dict reads as `d`. */
  lemma DocumentOfReads(f: map<string, Json>, d: Document)
    requires DocumentReads(f, d)
    ensures DocumentOf(JObject(f)) == Ok(d)
  {
  }

  /** A document whose `created_at` is the empty string is not decoded,
      where a highlight with an empty `updated` is, with no time. */
  lemma EmptyTimestamps(f: map<string, Json>, d: Document, x: Highlight)
    requires DocumentReads(f, d) && HighlightReads(f, x)
    ensures DocumentOf(JObject(f["created_at" := JStr("")])) == Err(ValueError)
    ensures HighlightOf(JObject(f["updated" := JStr("")])) == Ok(x.(updated := None))
  {
    assert HighlightReads(f["updated" := JStr("")], x.(updated := None));
  }

  // --- records of export_highlights, built by unpacking dicts

  /** A dataclass called with `**given`: every required field present, no
      keyword that is not a field, and the defaults filled in for the
      optional fields left out. */
  function Keywords(given: map<string, Json>, required: set<string>, defaults: map<string, Json>)
    : (r: Result<map<string, Json>>)
    ensures r.Ok? <==> required <= given.Keys && given.Keys <= required + defaults.Keys
    ensures r.Err? ==> r.error == TypeError
    ensures r.Ok? ==> r.value.Keys == required + defaults.Keys
    ensures r.Ok? ==> forall k | k in given :: r.value[k] == given[k]
    ensures r.Ok? ==> forall k | k in defaults && k !in given :: r.value[k] == defaults[k]
  {
    if required <= given.Keys && given.Keys <= required + defaults.Keys then
      Ok(map k | k in required + defaults.Keys :: if k in given then given[k] else defaults[k])
    else Err(TypeError)
  }

  /** Passing an optional field with its default value builds the same
      record as leaving it out: `is_favorite=False` and no `is_favorite`
      are alike to the dataclass. */
  lemma KeywordsDefaultExplicit(given: map<string, Json>, required: set<string>, defaults: map<string, Json>, k: string)
    requires k in defaults && k !in given && k !in required
    ensures Keywords(given[k := defaults[k]], required, defaults) == Keywords(given, required, defaults)
  {
    var r1 := Keywords(given[k := defaults[k]], required, defaults);
    var r2 := Keywords(given, required, defaults);
    assert r1.Ok? <==> r2.Ok?;
    if r1.Ok? {
      assert r1.value.Keys == r2.value.Keys;
      assert forall j | j in r1.value :: r1.value[j] == r2.value[j];
      assert r1.value == r2.value;
    }
  }

  /** The required fields of the `ReadwiseExportHighlight` dataclass
      (readwise/models.py:56-67); `tags` is passed on its own. */
  const ExportHighlightFields: set<string> :=
    {"id", "text", "location", "location_type", "note", "color", "highlighted_at", "created_at", "updated_at",
     "external_id", "book_id", "readwise_url"}

  /** The fields of `ReadwiseExportHighlight` that have defaults
      (readwise/models.py:69-72). */
  const ExportHighlightDefaults: map<string, Json> :=
    map["is_favorite" := JBool(false), "is_discard" := JBool(false), "url" := JNull, "end_location" := JNull]

  datatype ExportHighlight = ExportHighlight(fields: map<string, Json>, tags: seq<Tag>)

  /** The `ReadwiseExportHighlight(tags=..., **rest)` call of
      readwise/api.py:284-292: the tags are unpacked first, then every other
      key is passed as a keyword. */
  function ExportHighlightOf(h: Json): (r: Result<ExportHighlight>)
    ensures !h.JObject? ==> r == Err(TypeError)
    ensures h.JObject? && "tags" !in h.fields ==> r == Err(KeyError("tags"))
    ensures r.Ok? ==> h.JObject? && "tags" in h.fields
    ensures r.Ok? ==> Keywords(h.fields - {"tags"}, ExportHighlightFields, ExportHighlightDefaults) == Ok(r.value.fields)
    ensures r.Ok? ==> TagsFromKeywords(h.fields["tags"]) == Ok(r.value.tags)
  {
    var tags :- Index(h, "tags");
    var tagList :- TagsFromKeywords(tags);
    var fields :- Keywords(h.fields - {"tags"}, ExportHighlightFields, ExportHighlightDefaults);
    Ok(ExportHighlight(fields, tagList))
  }

  /** The required fields of the `ReadwiseExportResults` dataclass
      (readwise/models.py:77-88), and the one optional field not passed on
      its own (readwise/models.py:91). */
  const ExportResultFields: set<string> :=
    {"user_book_id", "title", "author", "readable_title", "source", "cover_image_url", "unique_url", "category",
     "document_note", "summary", "readwise_url", "source_url"}

  const ExportResultDefaults: map<string, Json> := map["asin" := JNull]

  datatype ExportResult = ExportResult(fields: map<string, Json>, bookTags: seq<Tag>, highlights: seq<ExportHighlight>)

  /** The `ReadwiseExportResults(...)` call of readwise/api.py:281-304: the
      book tags, then the highlights, then every other key of the book as a
      keyword. */
  function ExportResultOf(book: Json): (r: Result<ExportResult>)
    ensures !book.JObject? ==> r == Err(TypeError)
    ensures book.JObject? && "book_tags" !in book.fields ==> r == Err(KeyError("book_tags"))
    ensures r.Ok? ==> book.JObject? && "book_tags" in book.fields && "highlights" in book.fields
    ensures r.Ok? ==> Keywords(book.fields - {"book_tags", "highlights"}, ExportResultFields, ExportResultDefaults) == Ok(r.value.fields)
    ensures r.Ok? ==> TagsFromKeywords(book.fields["book_tags"]) == Ok(r.value.bookTags)
    ensures r.Ok? ==> Elements(book.fields["highlights"]).Ok?
    ensures r.Ok? ==> MapAll(Elements(book.fields["highlights"]).value, ExportHighlightOf) == Ok(r.value.highlights)
    ensures (book.JObject? && "book_tags" in book.fields && TagsFromKeywords(book.fields["book_tags"]).Ok?
             && "highlights" !in book.fields) ==> r == Err(KeyError("highlights"))
  {
    var bookTags :- Index(book, "book_tags");
    var bookTagList :- TagsFromKeywords(bookTags);
    var highlights :- Index(book, "highlights");
    var items :- Elements(highlights);
    var highlightList :- MapAll(items, ExportHighlightOf);
    var fields :- Keywords(book.fields - {"book_tags", "highlights"}, ExportResultFields, ExportResultDefaults);
    Ok(ExportResult(fields, bookTagList, highlightList))
  }

  /** A book whose highlights fail to decode fails with the first failing
      highlight's error: the list comprehension of readwise/api.py:284-294
      runs before the book is built. */
  lemma ExportHighlightFailsBook(book: Json, k: nat)
    requires book.JObject? && "book_tags" in book.fields && TagsFromKeywords(book.fields["book_tags"]).Ok?
    requires "highlights" in book.fields && Elements(book.fields["highlights"]).Ok?
    requires k < |Elements(book.fields["highlights"]).value|
    requires ExportHighlightOf(Elements(book.fields["highlights"]).value[k]).Err?
    requires forall i | 0 <= i < k :: ExportHighlightOf(Elements(book.fields["highlights"]).value[i]).Ok?
    ensures ExportResultOf(book) == Err(ExportHighlightOf(Elements(book.fields["highlights"]).value[k]).error)
  {
    MapAllFirstError(Elements(book.fields["highlights"]).value, ExportHighlightOf, k);
  }

  /** An export highlight with every field given and no extra key is read
      back with its own values and no default in the way. */
  lemma ExportHighlightAllFields(f: map<string, Json>, tags: seq<Tag>)
    requires f.Keys == ExportHighlightFields + ExportHighlightDefaults.Keys
    ensures ExportHighlightOf(JObject(f["tags" := TagsJson(tags)])) == Ok(ExportHighlight(f, tags))
  {
    TagsRoundTrip(tags);
    assert "tags" !in f;
    assert f["tags" := TagsJson(tags)] - {"tags"} == f;
    var kw := Keywords(f, ExportHighlightFields, ExportHighlightDefaults);
    assert kw.Ok?;
    assert kw.value == f;
  }

  /** A key that is not a field of the dataclass makes the export fail. */
  lemma ExportHighlightUnknownKey(f: map<string, Json>, key: string, v: Json)
    requires "tags" in f && TagsFromKeywords(f["tags"]).Ok?
    requires key != "tags" && key !in ExportHighlightFields && key !in ExportHighlightDefaults
    ensures ExportHighlightOf(JObject(f[key := v])) == Err(TypeError)
  {
    assert key in (f[key := v] - {"tags"}).Keys;
  }

  // --- the daily review

  /** `ReadwiseDailyReview(**review)` and `DailyReviewHighlight(**highlight)`:
      neither class is defined in readwise/models.py, so the model keeps the
      keywords as given and only the unpacking itself can fail. */
  datatype DailyReview = DailyReview(fields: map<string, Json>)

  datatype ReviewHighlight = ReviewHighlight(fields: map<string, Json>)

  /** `**v` needs a dict. */
  function DailyReviewOf(v: Json): (r: Result<DailyReview>)
    ensures r.Ok? <==> v.JObject?
    ensures r.Ok? ==> JObject(r.value.fields) == v
    ensures r.Err? ==> r.error == TypeError
  {
    if v.JObject? then Ok(DailyReview(v.fields)) else Err(TypeError)
  }

  function ReviewHighlightOf(v: Json): (r: Result<ReviewHighlight>)
    ensures r.Ok? <==> v.JObject?
    ensures r.Ok? ==> JObject(r.value.fields) == v
    ensures r.Err? ==> r.error == TypeError
  {
    if v.JObject? then Ok(ReviewHighlight(v.fields)) else Err(TypeError)
  }

  /** `daily_review.highlights`: an attribute the review has only when the
      server sent that key. */
  function ReviewHighlights(review: DailyReview): (r: Result<Json>)
    ensures r.Ok? <==> "highlights" in review.fields
    ensures r.Ok? ==> r.value == review.fields["highlights"]
    ensures r.Err? ==> r.error == AttributeError
  {
    if "highlights" in review.fields then Ok(review.fields["highlights"]) else Err(AttributeError)
  }
}
