/** The request bodies and query maps the clients build key by key: the
    filters of `get_highlights` and `export_highlights`, the payload of
    `create_highlight` and the payload of `create_document`. Each is a dict
    of keys it always sets, followed by a table of optional keys in the
    order the source tests them, each with the condition under which it is
    set and the value it is set to. Every optional key is added only when
    its argument is truthy (or, for `should_clean_html`, not None), so an
    absent argument is never sent as null. */
module Builders {
  import opened Common
  import opened Json
  import opened Http

  /** Python's truth value of an optional string argument: None and "" are
      both falsy. */
  predicate Given(s: Option<string>) {
    s.Some? && s.value != ""
  }

  /** The truth value of an optional list argument: None and [] are falsy. */
  predicate GivenList(s: Option<seq<string>>) {
    s.Some? && s.value != []
  }

  function OrEmpty(s: Option<string>): string {
    if s.Some? then s.value else ""
  }

  function OrNone(s: Option<seq<string>>): seq<string> {
    if s.Some? then s.value else []
  }

  function IsoOf(d: Option<DateTime>): string {
    if d.Some? then d.value.iso else ""
  }

  /** `key` is in `d` exactly when `present`, and then maps to `value`. */
  predicate Optional(d: Query, key: string, present: bool, value: Json) {
    (key in d <==> present) && (present ==> d[key] == value)
  }

  /** `p` and `q` both lack `key` or map it to the same value. */
  predicate AgreeOn(p: Query, q: Query, key: string) {
    (key in p <==> key in q) && (key in p ==> p[key] == q[key])
  }

  /** Two dicts over the same keys that agree on each of them are equal. */
  lemma AgreeEverywhere(p: Query, q: Query, keys: set<string>)
    requires p.Keys <= keys && q.Keys <= keys
    requires forall k | k in keys :: AgreeOn(p, q, k)
    ensures p == q
  {
    assert forall k | k in p :: AgreeOn(p, q, k);
    assert forall k | k in q :: AgreeOn(p, q, k);
  }

  /** A JSON list of strings, as `requests` serialises a `list[str]`. */
  function Strings(items: seq<string>): (j: Json)
    ensures j.JList? && |j.items| == |items|
    ensures forall i | 0 <= i < |items| :: j.items[i] == JStr(items[i])
  {
    JList(seq(|items|, i requires 0 <= i < |items| => JStr(items[i])))
  }

  /** `sep.join(parts)`. */
  function Join(sep: string, parts: seq<string>): (s: string)
    ensures parts == [] ==> s == ""
    ensures |parts| == 1 ==> s == parts[0]
  {
    if parts == [] then ""
    else if |parts| == 1 then parts[0]
    else parts[0] + sep + Join(sep, parts[1..])
  }

  /** How a server splits a comma-separated parameter: `s.split(c)`. */
  function Split(c: char, s: string): (parts: seq<string>)
    ensures parts != []
  {
    if s == [] then [""]
    else
      var rest := Split(c, s[1..]);
      if s[0] == c then [""] + rest else [[s[0]] + rest[0]] + rest[1..]
  }

  /** Splitting a part with no separator in it, followed by the separator
      and more text, splits off exactly that part. */
  lemma {:induction false} SplitAfterPart(c: char, part: string, rest: string)
    requires c !in part
    ensures Split(c, part + [c] + rest) == [part] + Split(c, rest)
    decreases |part|
  {
    var s := part + [c] + rest;
    if part == [] {
      assert s == [c] + rest;
      assert s[1..] == rest;
    } else {
      assert s[0] == part[0] && s[0] != c;
      assert s[1..] == part[1..] + [c] + rest;
      SplitAfterPart(c, part[1..], rest);
      assert [part[0]] + part[1..] == part;
    }
  }

  /** A part with no separator in it splits into itself. */
  lemma {:induction false} SplitWhole(c: char, part: string)
    requires c !in part
    ensures Split(c, part) == [part]
    decreases |part|
  {
    if part != [] {
      SplitWhole(c, part[1..]);
      assert [part[0]] + part[1..] == part;
    }
  }

  /** Joining ids with a one-character separator that none of them contains
      loses nothing: the server gets back exactly the list sent. */
  lemma {:induction false} SplitJoin(c: char, parts: seq<string>)
    requires parts != []
    requires forall i | 0 <= i < |parts| :: c !in parts[i]
    ensures Split(c, Join([c], parts)) == parts
    decreases |parts|
  {
    if |parts| == 1 {
      SplitWhole(c, parts[0]);
    } else {
      SplitJoin(c, parts[1..]);
      SplitAfterPart(c, parts[0], Join([c], parts[1..]));
      assert [parts[0]] + parts[1..] == parts;
    }
  }

  /** One optional key of a dict being built: `if present: d[key] = value`. */
  datatype Field = Field(key: string, present: bool, value: Json)

  function Put(d: Query, f: Field): Query {
    if f.present then d[f.key := f.value] else d
  }

  /** `if present: d[key] = value`, in place. */
  method SetIf(d: Query, f: Field) returns (e: Query)
    ensures e == Put(d, f)
  {
    e := d;
    if f.present {
      e := e[f.key := f.value];
    }
  }

  /** The dict `d` after the optional keys `fields`, in order. */
  function PutAll(d: Query, fields: seq<Field>): Query {
    if fields == [] then d else Put(PutAll(d, fields[..|fields| - 1]), fields[|fields| - 1])
  }

  function KeysOf(fields: seq<Field>): set<string> {
    set i | 0 <= i < |fields| :: fields[i].key
  }

  /** No two optional keys are the same, and none is already in `d`. */
  predicate Fresh(d: Query, fields: seq<Field>) {
    && (forall i | 0 <= i < |fields| :: fields[i].key !in d)
    && (forall i, j | 0 <= i < j < |fields| :: fields[i].key != fields[j].key)
  }

  /** Building with fresh optional keys keeps what `d` holds, sets each
      optional key exactly when its condition holds, to its value, and adds
      nothing else. */
  lemma PutAllShape(d: Query, fields: seq<Field>)
    requires Fresh(d, fields)
    ensures forall k | k in d :: k in PutAll(d, fields) && PutAll(d, fields)[k] == d[k]
    ensures forall i | 0 <= i < |fields| :: Optional(PutAll(d, fields), fields[i].key, fields[i].present, fields[i].value)
    ensures PutAll(d, fields).Keys <= d.Keys + KeysOf(fields)
  {
    PutAllKeeps(d, fields);
    PutAllSets(d, fields);
    PutAllAddsOnly(d, fields);
  }

  /** Each optional key is set on the dict the keys before it have built,
      so the whole build is the keys' `Put`s one after the other. */
  lemma PutAllPrefixes(d: Query, fields: seq<Field>)
    ensures forall k | 0 < k <= |fields| :: PutAll(d, fields[..k]) == Put(PutAll(d, fields[..k - 1]), fields[k - 1])
    ensures PutAll(d, fields[..0]) == d && PutAll(d, fields[..|fields|]) == PutAll(d, fields)
  {
    forall k | 0 < k <= |fields|
      ensures PutAll(d, fields[..k]) == Put(PutAll(d, fields[..k - 1]), fields[k - 1])
    {
      assert fields[..k][..k - 1] == fields[..k - 1];
    }
    assert fields[..|fields|] == fields;
  }

  lemma {:induction false} PutAllKeeps(d: Query, fields: seq<Field>)
    requires forall i | 0 <= i < |fields| :: fields[i].key !in d
    ensures forall k | k in d :: k in PutAll(d, fields) && PutAll(d, fields)[k] == d[k]
    decreases |fields|
  {
    if fields != [] {
      PutAllKeeps(d, fields[..|fields| - 1]);
    }
  }

  lemma {:induction false} PutAllAddsOnly(d: Query, fields: seq<Field>)
    ensures PutAll(d, fields).Keys <= d.Keys + KeysOf(fields)
    decreases |fields|
  {
    if fields != [] {
      var init := fields[..|fields| - 1];
      PutAllAddsOnly(d, init);
      assert KeysOf(fields) == KeysOf(init) + {fields[|fields| - 1].key};
    }
  }

  lemma {:induction false} PutAllSets(d: Query, fields: seq<Field>)
    requires Fresh(d, fields)
    ensures forall i | 0 <= i < |fields| :: Optional(PutAll(d, fields), fields[i].key, fields[i].present, fields[i].value)
    decreases |fields|
  {
    if fields != [] {
      var init, last := fields[..|fields| - 1], fields[|fields| - 1];
      assert Fresh(d, init);
      PutAllSets(d, init);
      var m := PutAll(d, init);
      assert PutAll(d, fields) == Put(m, last);
      forall i | 0 <= i < |fields|
        ensures Optional(Put(m, last), fields[i].key, fields[i].present, fields[i].value)
      {
        if i < |init| {
          assert fields[i] == init[i] && init[i].key != last.key;
          assert Optional(m, init[i].key, init[i].present, init[i].value);
        } else {
          PutAllKeeps(d, init);
          PutAllAddsOnly(d, init);
          assert last.key !in KeysOf(init);
        }
      }
    }
  }

  // --- get_highlights (readwise/api.py:327-337)

  const BookIdKey: string := "book_id"
  const UpdatedLtKey: string := "updated__lt"
  const UpdatedGtKey: string := "updated__gt"
  const HighlightedLtKey: string := "highlighted_at__lt"
  const HighlightedGtKey: string := "highlighted_at__gt"
  const BookIdSeparator: string := ", "

  /** The query map of `get_highlights`: `book_id` is the ids joined with
      ", ", and every date argument given sets one key to its ISO text,
      with `..._after` mapped to `__lt` and `..._before` to `__gt` as the
      source writes it. Nothing else is in the map. */
  predicate IsHighlightFilters(params: Query, bookIds: Option<seq<string>>, updatedAfter: Option<DateTime>,
                               updatedBefore: Option<DateTime>, highlightedAtAfter: Option<DateTime>,
                               highlightedAtBefore: Option<DateTime>)
  {
    && params.Keys <= {BookIdKey, UpdatedLtKey, UpdatedGtKey, HighlightedLtKey, HighlightedGtKey}
    && Optional(params, BookIdKey, GivenList(bookIds), JStr(Join(BookIdSeparator, OrNone(bookIds))))
    && Optional(params, UpdatedLtKey, updatedAfter.Some?, JStr(IsoOf(updatedAfter)))
    && Optional(params, UpdatedGtKey, updatedBefore.Some?, JStr(IsoOf(updatedBefore)))
    && Optional(params, HighlightedLtKey, highlightedAtAfter.Some?, JStr(IsoOf(highlightedAtAfter)))
    && Optional(params, HighlightedGtKey, highlightedAtBefore.Some?, JStr(IsoOf(highlightedAtBefore)))
  }

  /** The optional keys of `get_highlights`, in the order the source tests
      them. */
  function HighlightFilterFields(bookIds: Option<seq<string>>, updatedAfter: Option<DateTime>,
                                 updatedBefore: Option<DateTime>, highlightedAtAfter: Option<DateTime>,
                                 highlightedAtBefore: Option<DateTime>): (fields: seq<Field>)
    ensures Fresh(map[], fields)
    ensures KeysOf(fields) == {BookIdKey, UpdatedLtKey, UpdatedGtKey, HighlightedLtKey, HighlightedGtKey}
  {
    var fields := [ Field(BookIdKey, GivenList(bookIds), JStr(Join(BookIdSeparator, OrNone(bookIds)))),
                    Field(UpdatedLtKey, updatedAfter.Some?, JStr(IsoOf(updatedAfter))),
                    Field(UpdatedGtKey, updatedBefore.Some?, JStr(IsoOf(updatedBefore))),
                    Field(HighlightedLtKey, highlightedAtAfter.Some?, JStr(IsoOf(highlightedAtAfter))),
                    Field(HighlightedGtKey, highlightedAtBefore.Some?, JStr(IsoOf(highlightedAtBefore))) ];
    assert KeysOf(fields) == {fields[0].key, fields[1].key, fields[2].key, fields[3].key, fields[4].key};
    fields
  }

  function HighlightFilters(bookIds: Option<seq<string>>, updatedAfter: Option<DateTime>, updatedBefore: Option<DateTime>,
                            highlightedAtAfter: Option<DateTime>, highlightedAtBefore: Option<DateTime>)
    : (params: Query)
    ensures IsHighlightFilters(params, bookIds, updatedAfter, updatedBefore, highlightedAtAfter, highlightedAtBefore)
  {
    var fields := HighlightFilterFields(bookIds, updatedAfter, updatedBefore, highlightedAtAfter, highlightedAtBefore);
    PutAllShape(map[], fields);
    PutAll(map[], fields)
  }

  /** The query `get_highlights` builds (readwise/api.py:327-337), key by
      key. */
  method BuildHighlightFilters(bookIds: Option<seq<string>>, updatedAfter: Option<DateTime>,
                               updatedBefore: Option<DateTime>, highlightedAtAfter: Option<DateTime>,
                               highlightedAtBefore: Option<DateTime>)
    returns (params: Query)
    ensures params == HighlightFilters(bookIds, updatedAfter, updatedBefore, highlightedAtAfter, highlightedAtBefore)
  {
    var fields := HighlightFilterFields(bookIds, updatedAfter, updatedBefore, highlightedAtAfter, highlightedAtBefore);
    params := map[];
    params := SetIf(params, fields[0]);  // book_id
    params := SetIf(params, fields[1]);  // updated__lt
    params := SetIf(params, fields[2]);  // updated__gt
    params := SetIf(params, fields[3]);  // highlighted_at__lt
    params := SetIf(params, fields[4]);  // highlighted_at__gt
    PutAllPrefixes(map[], fields);
  }

  /** The filter map is determined by the arguments. */
  lemma HighlightFiltersUnique(p: Query, q: Query, bookIds: Option<seq<string>>, updatedAfter: Option<DateTime>,
                               updatedBefore: Option<DateTime>, highlightedAtAfter: Option<DateTime>,
                               highlightedAtBefore: Option<DateTime>)
    requires IsHighlightFilters(p, bookIds, updatedAfter, updatedBefore, highlightedAtAfter, highlightedAtBefore)
    requires IsHighlightFilters(q, bookIds, updatedAfter, updatedBefore, highlightedAtAfter, highlightedAtBefore)
    ensures p == q
  {
    assert p.Keys == q.Keys;
  }

  /** With no filter given the query is empty, so every highlight is asked
      for. */
  lemma NoHighlightFilters(params: Query)
    requires IsHighlightFilters(params, None, None, None, None, None)
    ensures params == map[]
  {
    assert params.Keys == {};
  }

  /** The filter the caller names `updated_after` is sent as an upper bound
      on `updated`: the key `updated__lt`, not `updated__gt`. */
  lemma UpdatedAfterSentAsUpperBound(params: Query, after: DateTime)
    requires IsHighlightFilters(params, None, Some(after), None, None, None)
    ensures params == map[UpdatedLtKey := JStr(after.iso)]
  {
    assert params.Keys == {UpdatedLtKey};
  }

  // --- export_highlights (readwise/api.py:275-279)

  const UpdatedAfterKey: string := "updatedAfter"
  const IdsKey: string := "ids"
  const IdSeparator: string := ","

  /** The query map of `export_highlights`: `updatedAfter` when that text is
      given, `ids` joined with "," when the list is non-empty. */
  predicate IsExportFilters(params: Query, updatedAfter: Option<string>, ids: Option<seq<string>>) {
    && params.Keys <= {UpdatedAfterKey, IdsKey}
    && Optional(params, UpdatedAfterKey, Given(updatedAfter), JStr(OrEmpty(updatedAfter)))
    && Optional(params, IdsKey, GivenList(ids), JStr(Join(IdSeparator, OrNone(ids))))
  }

  /** The optional keys of `export_highlights`, in the order the source
      tests them. */
  function ExportFilterFields(updatedAfter: Option<string>, ids: Option<seq<string>>): (fields: seq<Field>)
    ensures |fields| == 2
    ensures Fresh(map[], fields) && KeysOf(fields) == {UpdatedAfterKey, IdsKey}
  {
    var fields := [ Field(UpdatedAfterKey, Given(updatedAfter), JStr(OrEmpty(updatedAfter))),
                    Field(IdsKey, GivenList(ids), JStr(Join(IdSeparator, OrNone(ids)))) ];
    assert KeysOf(fields) == {fields[0].key, fields[1].key};
    fields
  }

  function ExportFilters(updatedAfter: Option<string>, ids: Option<seq<string>>): (params: Query)
    ensures IsExportFilters(params, updatedAfter, ids)
  {
    var fields := ExportFilterFields(updatedAfter, ids);
    PutAllShape(map[], fields);
    PutAll(map[], fields)
  }

  /** The query `export_highlights` builds (readwise/api.py:275-279), key by
      key. */
  method BuildExportFilters(updatedAfter: Option<string>, ids: Option<seq<string>>) returns (params: Query)
    ensures params == ExportFilters(updatedAfter, ids)
  {
    var fields := ExportFilterFields(updatedAfter, ids);
    params := map[];
    params := SetIf(params, fields[0]);  // updatedAfter
    params := SetIf(params, fields[1]);  // ids
    PutAllPrefixes(map[], fields);
  }

  /** The export filter map is determined by the arguments. */
  lemma ExportFiltersUnique(p: Query, q: Query, updatedAfter: Option<string>, ids: Option<seq<string>>)
    requires IsExportFilters(p, updatedAfter, ids) && IsExportFilters(q, updatedAfter, ids)
    ensures p == q
  {
    assert p.Keys == q.Keys;
  }

  /** The ids sent can be split back into the list given, as long as no id
      contains a comma. */
  lemma ExportIdsRoundTrip(params: Query, updatedAfter: Option<string>, ids: seq<string>)
    requires IsExportFilters(params, updatedAfter, Some(ids))
    requires ids != [] && forall i | 0 <= i < |ids| :: ',' !in ids[i]
    ensures IdsKey in params && params[IdsKey].JStr?
    ensures Split(',', params[IdsKey].s) == ids
  {
    SplitJoin(',', ids);
  }

  // --- create_highlight (readwise/api.py:462-472)

  const DefaultCategory: string := "articles"
  const HighlightsKey: string := "highlights"
  const HighlightsEndpoint: string := "/highlights/"

  /** The payload of `create_highlight`: `text`, `title` and `category`
      always; `author`, `source_url` and `note` only when non-empty;
      `highlighted_at` as ISO text when given. Nothing else. */
  predicate IsHighlightPayload(p: Query, text: string, title: string, author: Option<string>,
                               highlightedAt: Option<DateTime>, sourceUrl: Option<string>, category: string,
                               note: Option<string>)
  {
    && p.Keys <= {"text", "title", "category", "author", "highlighted_at", "source_url", "note"}
    && Optional(p, "text", true, JStr(text))
    && Optional(p, "title", true, JStr(title))
    && Optional(p, "category", true, JStr(category))
    && Optional(p, "author", Given(author), JStr(OrEmpty(author)))
    && Optional(p, "highlighted_at", highlightedAt.Some?, JStr(IsoOf(highlightedAt)))
    && Optional(p, "source_url", Given(sourceUrl), JStr(OrEmpty(sourceUrl)))
    && Optional(p, "note", Given(note), JStr(OrEmpty(note)))
  }

  /** The keys `create_highlight` always sets. */
  function HighlightBase(text: string, title: string, category: string): (d: Query)
    ensures d.Keys == {"text", "title", "category"}
  {
    map["text" := JStr(text), "title" := JStr(title), "category" := JStr(category)]
  }

  /** The optional keys of `create_highlight`, in the order the source tests
      them. */
  function HighlightOptions(author: Option<string>, highlightedAt: Option<DateTime>, sourceUrl: Option<string>,
                            note: Option<string>): (fields: seq<Field>)
    ensures |fields| == 4
    ensures fields[0].key == "author" && fields[1].key == "highlighted_at"
    ensures fields[2].key == "source_url" && fields[3].key == "note"
  {
    [ Field("author", Given(author), JStr(OrEmpty(author))),
      Field("highlighted_at", highlightedAt.Some?, JStr(IsoOf(highlightedAt))),
      Field("source_url", Given(sourceUrl), JStr(OrEmpty(sourceUrl))),
      Field("note", Given(note), JStr(OrEmpty(note))) ]
  }

  function HighlightPayload(text: string, title: string, author: Option<string>, highlightedAt: Option<DateTime>,
                            sourceUrl: Option<string>, category: string, note: Option<string>)
    : (payload: Query)
    ensures IsHighlightPayload(payload, text, title, author, highlightedAt, sourceUrl, category, note)
  {
    var base := HighlightBase(text, title, category);
    var options := HighlightOptions(author, highlightedAt, sourceUrl, note);
    assert KeysOf(options) == {"author", "highlighted_at", "source_url", "note"} by {
      assert KeysOf(options) == {options[0].key, options[1].key, options[2].key, options[3].key};
    }
    assert Fresh(base, options);
    PutAllShape(base, options);
    PutAll(base, options)
  }

  /** The payload `create_highlight` builds (readwise/api.py:462-470), key
      by key. */
  method BuildHighlightPayload(text: string, title: string, author: Option<string>, highlightedAt: Option<DateTime>,
                               sourceUrl: Option<string>, category: string, note: Option<string>)
    returns (payload: Query)
    ensures payload == HighlightPayload(text, title, author, highlightedAt, sourceUrl, category, note)
  {
    var options := HighlightOptions(author, highlightedAt, sourceUrl, note);
    payload := map["text" := JStr(text), "title" := JStr(title), "category" := JStr(category)];
    payload := SetIf(payload, options[0]);  // author
    payload := SetIf(payload, options[1]);  // highlighted_at
    payload := SetIf(payload, options[2]);  // source_url
    payload := SetIf(payload, options[3]);  // note
    PutAllPrefixes(HighlightBase(text, title, category), options);
  }

  /** The highlight payload is determined by the arguments, and no optional
      text in it is empty. */
  lemma HighlightPayloadUnique(p: Query, q: Query, text: string, title: string, author: Option<string>,
                               highlightedAt: Option<DateTime>, sourceUrl: Option<string>, category: string,
                               note: Option<string>)
    requires IsHighlightPayload(p, text, title, author, highlightedAt, sourceUrl, category, note)
    requires IsHighlightPayload(q, text, title, author, highlightedAt, sourceUrl, category, note)
    ensures p == q
    ensures forall k | k in p && k in {"author", "source_url", "note"} :: Truthy(p[k])
  {
    assert p.Keys == q.Keys;
  }

  /** `create_highlight(text, title)` with no options (so `category` is its
      default "articles", readwise/api.py:447) sends exactly text, title and
      category. */
  lemma DefaultHighlightPayload(text: string, title: string)
    ensures HighlightPayload(text, title, None, None, None, DefaultCategory, None)
            == map["text" := JStr(text), "title" := JStr(title), "category" := JStr("articles")]
  {
    var p := HighlightPayload(text, title, None, None, None, DefaultCategory, None);
    assert p.Keys <= {"text", "title", "category"};
  }

  /** The body `create_highlight` posts: `{"highlights": [payload]}`. */
  function HighlightsBody(payload: Query): (body: Query)
    ensures body.Keys == {HighlightsKey}
    ensures body[HighlightsKey].JList? && body[HighlightsKey].items == [JObject(payload)]
  {
    map[HighlightsKey := JList([JObject(payload)])]
  }

  // --- create_document (readwise/api.py:709-739)

  const DefaultLocation: string := "new"
  const DefaultTags: seq<string> := []
  const SaveEndpoint: string := "/save/"

  /** The payload of `create_document`: `url`, `tags` and `location` always;
      `should_clean_html` whenever it is not None, False included; `html`,
      `title`, `author`, `summary`, `image_url` and `saved_using` only when
      non-empty; `published_at` as ISO text when given. Nothing else. */
  predicate IsDocumentPayload(d: Query, url: string, html: Option<string>, shouldCleanHtml: Option<bool>,
                              title: Option<string>, author: Option<string>, summary: Option<string>,
                              publishedAt: Option<DateTime>, imageUrl: Option<string>, location: string,
                              savedUsing: Option<string>, tags: seq<string>)
  {
    && d.Keys <= {"url", "tags", "location", "html", "should_clean_html", "title", "author", "summary",
                  "published_at", "image_url", "saved_using"}
    && Optional(d, "url", true, JStr(url))
    && Optional(d, "tags", true, Strings(tags))
    && Optional(d, "location", true, JStr(location))
    && Optional(d, "html", Given(html), JStr(OrEmpty(html)))
    && Optional(d, "should_clean_html", shouldCleanHtml.Some?,
                JBool(shouldCleanHtml.Some? && shouldCleanHtml.value))
    && Optional(d, "title", Given(title), JStr(OrEmpty(title)))
    && Optional(d, "author", Given(author), JStr(OrEmpty(author)))
    && Optional(d, "summary", Given(summary), JStr(OrEmpty(summary)))
    && Optional(d, "published_at", publishedAt.Some?, JStr(IsoOf(publishedAt)))
    && Optional(d, "image_url", Given(imageUrl), JStr(OrEmpty(imageUrl)))
    && Optional(d, "saved_using", Given(savedUsing), JStr(OrEmpty(savedUsing)))
  }

  /** The keys `create_document` always sets. */
  function DocumentBase(url: string, location: string, tags: seq<string>): (d: Query)
    ensures d.Keys == {"url", "tags", "location"}
  {
    map["url" := JStr(url), "tags" := Strings(tags), "location" := JStr(location)]
  }

  /** The optional keys of `create_document`, in the order the source tests
      them. */
  function DocumentOptions(html: Option<string>, shouldCleanHtml: Option<bool>, title: Option<string>,
                           author: Option<string>, summary: Option<string>, publishedAt: Option<DateTime>,
                           imageUrl: Option<string>, savedUsing: Option<string>): (fields: seq<Field>)
    ensures |fields| == 8
  {
    [ Field("html", Given(html), JStr(OrEmpty(html))),
      Field("should_clean_html", shouldCleanHtml.Some?, JBool(shouldCleanHtml.Some? && shouldCleanHtml.value)),
      Field("title", Given(title), JStr(OrEmpty(title))),
      Field("author", Given(author), JStr(OrEmpty(author))),
      Field("summary", Given(summary), JStr(OrEmpty(summary))),
      Field("published_at", publishedAt.Some?, JStr(IsoOf(publishedAt))),
      Field("image_url", Given(imageUrl), JStr(OrEmpty(imageUrl))),
      Field("saved_using", Given(savedUsing), JStr(OrEmpty(savedUsing))) ]
  }

  function DocumentPayload(url: string, html: Option<string>, shouldCleanHtml: Option<bool>, title: Option<string>,
                           author: Option<string>, summary: Option<string>, publishedAt: Option<DateTime>,
                           imageUrl: Option<string>, location: string, savedUsing: Option<string>, tags: seq<string>)
    : Query
  {
    PutAll(DocumentBase(url, location, tags),
           DocumentOptions(html, shouldCleanHtml, title, author, summary, publishedAt, imageUrl, savedUsing))
  }

  /** What `create_document` sends: the three keys always set, and each
      optional key exactly when its argument is given, with its value. */
  lemma DocumentPayloadShape(url: string, html: Option<string>, shouldCleanHtml: Option<bool>, title: Option<string>,
                             author: Option<string>, summary: Option<string>, publishedAt: Option<DateTime>,
                             imageUrl: Option<string>, location: string, savedUsing: Option<string>,
                             tags: seq<string>)
    ensures IsDocumentPayload(DocumentPayload(url, html, shouldCleanHtml, title, author, summary, publishedAt,
                                              imageUrl, location, savedUsing, tags),
                              url, html, shouldCleanHtml, title, author, summary, publishedAt, imageUrl,
                              location, savedUsing, tags)
  {
    var base := DocumentBase(url, location, tags);
    var options := DocumentOptions(html, shouldCleanHtml, title, author, summary, publishedAt, imageUrl, savedUsing);
    DocumentOptionsFresh(url, location, tags, options);
    PutAllShape(base, options);
  }

  /** The body `create_document` builds (readwise/api.py:709-737), key by
      key. */
  method BuildDocumentPayload(url: string, html: Option<string>, shouldCleanHtml: Option<bool>, title: Option<string>,
                              author: Option<string>, summary: Option<string>, publishedAt: Option<DateTime>,
                              imageUrl: Option<string>, location: string, savedUsing: Option<string>,
                              tags: seq<string>)
    returns (data: Query)
    ensures data == DocumentPayload(url, html, shouldCleanHtml, title, author, summary, publishedAt, imageUrl,
                                    location, savedUsing, tags)
  {
    var options := DocumentOptions(html, shouldCleanHtml, title, author, summary, publishedAt, imageUrl, savedUsing);
    data := map["url" := JStr(url), "tags" := Strings(tags), "location" := JStr(location)];
    data := SetIf(data, options[0]);  // html
    data := SetIf(data, options[1]);  // should_clean_html
    data := SetIf(data, options[2]);  // title
    data := SetIf(data, options[3]);  // author
    data := SetIf(data, options[4]);  // summary
    data := SetIf(data, options[5]);  // published_at
    data := SetIf(data, options[6]);  // image_url
    data := SetIf(data, options[7]);  // saved_using
    PutAllPrefixes(DocumentBase(url, location, tags), options);
  }

  /** The optional keys are distinct and none of them is one of the keys
      always set. */
  lemma DocumentOptionsFresh(url: string, location: string, tags: seq<string>, options: seq<Field>)
    requires |options| == 8
    requires options[0].key == "html" && options[1].key == "should_clean_html" && options[2].key == "title"
    requires options[3].key == "author" && options[4].key == "summary" && options[5].key == "published_at"
    requires options[6].key == "image_url" && options[7].key == "saved_using"
    ensures Fresh(DocumentBase(url, location, tags), options)
    ensures KeysOf(options) == {"html", "should_clean_html", "title", "author", "summary", "published_at",
                               "image_url", "saved_using"}
  {
  }

  /** The document payload is determined by the arguments. */
  lemma DocumentPayloadUnique(p: Query, q: Query, url: string, html: Option<string>, shouldCleanHtml: Option<bool>,
                              title: Option<string>, author: Option<string>, summary: Option<string>,
                              publishedAt: Option<DateTime>, imageUrl: Option<string>, location: string,
                              savedUsing: Option<string>, tags: seq<string>)
    requires IsDocumentPayload(p, url, html, shouldCleanHtml, title, author, summary, publishedAt, imageUrl,
                               location, savedUsing, tags)
    requires IsDocumentPayload(q, url, html, shouldCleanHtml, title, author, summary, publishedAt, imageUrl,
                               location, savedUsing, tags)
    ensures p == q
  {
    var keys := {"url", "tags", "location", "html", "should_clean_html", "title", "author", "summary",
                 "published_at", "image_url", "saved_using"};
    forall k | k in keys
      ensures AgreeOn(p, q, k)
    {
      if k in {"url", "tags", "location", "html", "should_clean_html"} {
        assert k == "url" || k == "tags" || k == "location" || k == "html" || k == "should_clean_html";
      } else {
        assert k == "title" || k == "author" || k == "summary" || k == "published_at" || k == "image_url"
            || k == "saved_using";
      }
    }
    AgreeEverywhere(p, q, keys);
  }

  /** `create_document(url)` with no options (so `location` is "new" and
      `tags` is `[]`, readwise/api.py:686-688) sends exactly url, tags and
      location. */
  lemma DefaultDocumentPayload(url: string)
    ensures DocumentPayload(url, None, None, None, None, None, None, None, DefaultLocation, None, DefaultTags)
            == map["url" := JStr(url), "tags" := JList([]), "location" := JStr("new")]
  {
    DocumentPayloadShape(url, None, None, None, None, None, None, None, DefaultLocation, None, DefaultTags);
    var d := DocumentPayload(url, None, None, None, None, None, None, None, DefaultLocation, None, DefaultTags);
    assert d.Keys == {"url", "tags", "location"};
  }

  /** `should_clean_html=False` is sent, as False, unlike an empty `title`,
      which is left out. */
  lemma CleanHtmlFalseIsSent(d: Query, url: string)
    requires IsDocumentPayload(d, url, None, Some(false), Some(""), None, None, None, None, DefaultLocation, None, DefaultTags)
    ensures d == map["url" := JStr(url), "tags" := JList([]), "location" := JStr("new"), "should_clean_html" := JBool(false)]
  {
    assert d.Keys == {"url", "tags", "location", "should_clean_html"};
  }
}
