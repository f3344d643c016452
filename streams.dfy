/** The accessor generators of the client, `for data in pages: for x in
    items(data): yield record(x)`, as what they have produced when they
    stop: the records yielded, in order, and the exception they ended with,
    if any. Records yielded before a failure stay yielded. */
module Streams {
  import opened Common
  import opened Json
  import opened Records

  datatype Stream<T> = Stream(records: seq<T>, failure: Option<Error>)

  /** `for x in items: yield decode(x)`. */
  function DecodeItems<T>(items: seq<Json>, decode: Json -> Result<T>): (s: Stream<T>)
    ensures |s.records| <= |items|
    ensures forall i | 0 <= i < |s.records| :: decode(items[i]) == Ok(s.records[i])
    ensures s.failure.None? ==> |s.records| == |items|
    ensures s.failure.Some? ==> |s.records| < |items| && decode(items[|s.records|]) == Err(s.failure.value)
    decreases |items|
  {
    if items == [] then Stream([], None)
    else match decode(items[0])
      case Err(e) => Stream([], Some(e))
      case Ok(x) =>
        var rest := DecodeItems(items[1..], decode);
        assert forall i | 1 <= i < |items| :: items[i] == items[1..][i - 1];
        Stream([x] + rest.records, rest.failure)
  }

  /** `s` and then `t`, unless `s` has already raised. */
  function Chain<T>(s: Stream<T>, t: Stream<T>): Stream<T> {
    if s.failure.Some? then s else Stream(s.records + t.records, t.failure)
  }

  lemma ChainAssoc<T>(s: Stream<T>, t: Stream<T>, u: Stream<T>)
    ensures Chain(Chain(s, t), u) == Chain(s, Chain(t, u))
  {
    if s.failure.None? && t.failure.None? {
      assert s.records + t.records + u.records == s.records + (t.records + u.records);
    }
  }

  /** The items of one page and what they yield: a page whose items cannot
      be read raises before yielding anything from it. */
  function DecodePage<T>(page: Json, itemsOf: Json -> Result<seq<Json>>, decode: Json -> Result<T>): Stream<T> {
    match itemsOf(page)
    case Err(e) => Stream([], Some(e))
    case Ok(items) => DecodeItems(items, decode)
  }

  /** `for data in pages: for x in itemsOf(data): yield decode(x)`. */
  function DecodePages<T>(pages: seq<Json>, itemsOf: Json -> Result<seq<Json>>, decode: Json -> Result<T>)
    : Stream<T>
    decreases |pages|
  {
    if pages == [] then Stream([], None)
    else Chain(DecodePage(pages[0], itemsOf, decode), DecodePages(pages[1..], itemsOf, decode))
  }

  /** `data["results"]`, iterated. */
  function Results(page: Json): (r: Result<seq<Json>>)
    ensures page.JObject? && "results" in page.fields && page.fields["results"].JList? ==>
      r == Ok(page.fields["results"].items)
    ensures !page.JObject? ==> r == Err(TypeError)
  {
    var results :- Index(page, "results");
    Elements(results)
  }

  /** Every item of every page, in page order, or the first page whose items
      cannot be read. */
  function AllItems(pages: seq<Json>, itemsOf: Json -> Result<seq<Json>>): Result<seq<Json>>
    decreases |pages|
  {
    if pages == [] then Ok([])
    else
      var items :- itemsOf(pages[0]);
      var rest :- AllItems(pages[1..], itemsOf);
      Ok(items + rest)
  }

  /** The generator over items, split anywhere, is the two halves one after
      the other. */
  lemma {:induction false} DecodeItemsAppend<T>(a: seq<Json>, b: seq<Json>, decode: Json -> Result<T>)
    ensures DecodeItems(a + b, decode) == Chain(DecodeItems(a, decode), DecodeItems(b, decode))
    decreases |a|
  {
    if a != [] {
      assert (a + b)[0] == a[0] && (a + b)[1..] == a[1..] + b;
      if decode(a[0]).Ok? {
        DecodeItemsAppend(a[1..], b, decode);
        var x := decode(a[0]).value;
        ChainAssoc(Stream([x], None), DecodeItems(a[1..], decode), DecodeItems(b, decode));
      }
    } else {
      assert a + b == b;
    }
  }

  /** When every page's items can be read, the nested loops yield what one
      loop over all the items, page after page, yields. */
  lemma {:induction false} DecodePagesFlat<T>(pages: seq<Json>, itemsOf: Json -> Result<seq<Json>>, decode: Json -> Result<T>)
    requires AllItems(pages, itemsOf).Ok?
    ensures DecodePages(pages, itemsOf, decode) == DecodeItems(AllItems(pages, itemsOf).value, decode)
    decreases |pages|
  {
    if pages != [] {
      DecodePagesFlat(pages[1..], itemsOf, decode);
      DecodeItemsAppend(itemsOf(pages[0]).value, AllItems(pages[1..], itemsOf).value, decode);
    }
  }

  /** The generator and the list comprehension over the same items agree:
      when the comprehension succeeds the generator yields its list and
      stops normally; when it raises, the generator raises the same. */
  lemma DecodeItemsAsList<T>(items: seq<Json>, decode: Json -> Result<T>)
    ensures MapAll(items, decode).Ok? ==> DecodeItems(items, decode) == Stream(MapAll(items, decode).value, None)
    ensures MapAll(items, decode).Err? ==> DecodeItems(items, decode).failure == Some(MapAll(items, decode).error)
  {
    var s := DecodeItems(items, decode);
    if s.failure.Some? {
      MapAllFirstError(items, decode, |s.records|);
    }
  }

  /** Pages of nothing yield nothing and raise nothing. */
  lemma {:induction false} EmptyPagesYieldNothing<T>(pages: seq<Json>, itemsOf: Json -> Result<seq<Json>>, decode: Json -> Result<T>)
    requires forall i | 0 <= i < |pages| :: itemsOf(pages[i]) == Ok([])
    ensures DecodePages(pages, itemsOf, decode) == Stream([], None)
    decreases |pages|
  {
    if pages != [] {
      assert itemsOf(pages[0]) == Ok([]);
      EmptyPagesYieldNothing(pages[1..], itemsOf, decode);
    }
  }

  /** Runs `for x in items: yield decode(x)`. */
  method CollectItems<T>(items: seq<Json>, decode: Json -> Result<T>) returns (s: Stream<T>)
    ensures s == DecodeItems(items, decode)
  {
    var records: seq<T> := [];
    var j := 0;
    while j < |items|
      invariant 0 <= j <= |items|
      invariant DecodeItems(items, decode) == Chain(Stream(records, None), DecodeItems(items[j..], decode))
    {
      assert items[j..][0] == items[j] && items[j..][1..] == items[j + 1..];
      var r := decode(items[j]);
      if r.Err? {
        return Stream(records, Some(r.error));
      }
      ChainAssoc(Stream(records, None), Stream([r.value], None), DecodeItems(items[j + 1..], decode));
      records := records + [r.value];
      j := j + 1;
    }
    assert items[j..] == [];
    s := Stream(records, None);
  }

  /** Runs `for data in pages: for x in itemsOf(data): yield decode(x)`. */
  method Collect<T>(pages: seq<Json>, itemsOf: Json -> Result<seq<Json>>, decode: Json -> Result<T>)
    returns (s: Stream<T>)
    ensures s == DecodePages(pages, itemsOf, decode)
  {
    var records: seq<T> := [];
    var i := 0;
    while i < |pages|
      invariant 0 <= i <= |pages|
      invariant DecodePages(pages, itemsOf, decode) == Chain(Stream(records, None), DecodePages(pages[i..], itemsOf, decode))
    {
      assert pages[i..][0] == pages[i] && pages[i..][1..] == pages[i + 1..];
      var items := itemsOf(pages[i]);
      if items.Err? {
        return Stream(records, Some(items.error));
      }
      var page := CollectItems(items.value, decode);
      ChainAssoc(Stream(records, None), page, DecodePages(pages[i + 1..], itemsOf, decode));
      if page.failure.Some? {
        return Stream(records + page.records, page.failure);
      }
      records := records + page.records;
      i := i + 1;
    }
    assert pages[i..] == [];
    s := Stream(records, None);
  }
}
