/** `fetch_weverse_data`: from a category URL to the spreadsheet rows, the
    downloaded images, the title stem and the currency code. The browser, the
    file system and the network are inputs (Env): what each navigation or
    download would have produced. */
module Scraper {
  import opened PyJson
  import opened Text
  import opened Site
  import opened Queries
  import opened Rows

  /** A downloaded thumbnail, named after the sanitised product name. */
  datatype Image = Image(fileName: string, content: seq<bv8>)

  /** What some products add to the two output lists. */
  datatype Contribution = Contribution(rows: seq<Row>, images: seq<Image>)

  const Nothing: Contribution := Contribution([], [])

  /** A category page as loaded: its title, and the parsed `__NEXT_DATA__`
      block, None when the block never attached or did not parse. */
  datatype Page = Page(title: string, nextData: Option<Json>)

  /** The world the run observes.
      files: the session files present on disk;
      browserStarts: whether the headless browser launches;
      category: the category page, None when navigation fails;
      details: the parsed `__NEXT_DATA__` of each product page that loads;
      downloads: the body of each image URL that answers with status 200. */
  datatype Env = Env(
    files: set<string>,
    browserStarts: bool,
    category: Option<Page>,
    details: map<string, Json>,
    downloads: map<string, seq<bv8>>)

  /** What the per-product loop needs besides the product. */
  datatype Ctx = Ctx(currency: string, artistId: string, details: map<string, Json>, downloads: map<string, seq<bv8>>)

  /** Why a run returns nothing. */
  datatype Failure =
    | UnknownLocale    // the URL names neither KRW nor JPY
    | MissingAuthFile  // the session file for that storefront is absent
    | BrowserFailed    // the browser did not launch
    | PageError        // an exception while reading the category page or a product
    | NoProducts       // the category page lists no products

  datatype Report = Report(rows: seq<Row>, images: seq<Image>, title: string, currency: string)

  datatype Outcome = Done(report: Report) | Aborted(failure: Failure)

  const ImageSuffix: string := ".jpg"

  /** The first thumbnail URL, taken from a one-element list holding None
      when the record has no `thumbnailImageUrls`. */
  function Thumbnail(detail: seq<(string, Json)>): Result<Json> {
    Index0(Get(detail, "thumbnailImageUrls", JArr([JNull])))
  }

  /** The image kept for a product: one, when its URL is a non-empty string
      whose download succeeds. */
  function Downloaded(img: Json, safeName: string, downloads: map<string, seq<bv8>>): (r: seq<Image>)
    ensures |r| <= 1
    ensures |r| == 1 <==> img.JStr? && img.s != [] && img.s in downloads
    ensures forall im :: im in r ==> im.fileName == safeName + ImageSuffix && im.content == downloads[img.s]
  {
    if Truthy(img) && img.JStr? && img.s in downloads then [Image(safeName + ImageSuffix, downloads[img.s])] else []
  }

  /** Taking the first thumbnail URL: None when the record lists none, the
      first element of a non-empty list, and an exception when the listed
      value is empty or cannot be indexed by 0. */
  lemma ThumbnailCases(detail: seq<(string, Json)>)
    ensures Lookup(detail, "thumbnailImageUrls").None? ==> Thumbnail(detail) == Ok(JNull)
    ensures Lookup(detail, "thumbnailImageUrls").Some? ==>
              var urls := Lookup(detail, "thumbnailImageUrls").value;
              && (Thumbnail(detail).Ok? <==> (urls.JArr? && urls.items != []) || (urls.JStr? && urls.s != []))
              && (urls.JArr? && urls.items != [] ==> Thumbnail(detail) == Ok(urls.items[0]))
  {
  }

  /** What a matched, non-empty sale record adds: the image first, then the
      rows; an exception while reading the thumbnail adds nothing. */
  function DetailContribution(detail: seq<(string, Json)>, name: string, url: string, safeName: string,
                              downloads: map<string, seq<bv8>>): Contribution {
    match Thumbnail(detail)
    case Raised => Nothing
    case Ok(img) => Contribution(DetailRows(detail, Head(name, url, img)), Downloaded(img, safeName, downloads))
  }

  /** The sale record a product page holds: its `__NEXT_DATA__` loaded, the
      query list read, and a non-empty record with the product's sale id
      found among the queries. None when any of these fails. */
  function SaleRecord(url: string, saleId: string, details: map<string, Json>): Option<seq<(string, Json)>> {
    if url !in details then None
    else
      match QueriesOf(details[url])
      case Raised => None
      case Ok(pq) =>
        match Iter(pq)
        case Raised => None
        case Ok(qs) =>
          match FirstMatch(qs, SaleDetail(saleId))
          case Ok(Some(d)) => if Truthy(d) then Some(d.fields) else None
          case _ => None
  }

  /** A record without `thumbnailImageUrls` still gives its rows, with no
      image URL and no image. */
  lemma MissingThumbnailKeepsRows(detail: seq<(string, Json)>, name: string, url: string, safeName: string,
                                  downloads: map<string, seq<bv8>>)
    requires Lookup(detail, "thumbnailImageUrls").None?
    ensures DetailContribution(detail, name, url, safeName, downloads) ==
              Contribution(DetailRows(detail, Head(name, url, JNull)), [])
  {
  }

  /** A record whose `thumbnailImageUrls` is an empty list loses its rows
      too: taking the first URL raises inside the product's `try`. */
  lemma EmptyThumbnailListDropsRows(detail: seq<(string, Json)>, name: string, url: string, safeName: string,
                                    downloads: map<string, seq<bv8>>)
    requires Lookup(detail, "thumbnailImageUrls") == Some(JArr([]))
    ensures DetailContribution(detail, name, url, safeName, downloads) == Nothing
  {
  }

  /** The inner `try` block for one product: everything it appended before
      it finished or raised. */
  function TryDetail(name: string, safeName: string, url: string, saleId: string, ctx: Ctx): Contribution {
    match SaleRecord(url, saleId, ctx.details)
    case None => Nothing
    case Some(d) => DetailContribution(d, name, url, safeName, ctx.downloads)
  }

  /** One pass of the product loop. Reading the name and the sale id happens
      outside the inner `try`, so a failure there ends the whole run; so does
      a name that is not a string, which `re.sub` rejects. */
  function ItemStep(item: Json, ctx: Ctx): Result<Contribution> {
    match Subscript(item, "name")
    case Raised => Raised
    case Ok(nameValue) =>
      if !nameValue.JStr? then Raised
      else
        match Subscript(item, "saleId")
        case Raised => Raised
        case Ok(sid) =>
          var saleId := PyStr(sid);
          Ok(TryDetail(nameValue.s, Sanitize(nameValue.s), DetailUrl(ctx.currency, ctx.artistId, saleId), saleId, ctx))
  }

  /** A product's step raises, ending the run, exactly when its `name` is
      missing or not a string, or its `saleId` is missing. */
  lemma ItemStepRaises(item: Json, ctx: Ctx)
    ensures ItemStep(item, ctx).Raised? <==>
              || Subscript(item, "name").Raised?
              || !Subscript(item, "name").value.JStr?
              || Subscript(item, "saleId").Raised?
  {
  }

  /** Appending a contribution in front of a later result. */
  function Prepend(acc: Contribution, r: Result<Contribution>): Result<Contribution> {
    match r
    case Raised => Raised
    case Ok(c) => Ok(Contribution(acc.rows + c.rows, acc.images + c.images))
  }

  lemma PrependNothing(r: Result<Contribution>)
    ensures Prepend(Nothing, r) == r
  {
    match r
    case Raised =>
    case Ok(c) => assert [] + c.rows == c.rows && [] + c.images == c.images;
  }

  /** Prepending twice is prepending the concatenation. */
  lemma PrependTwice(a: Contribution, c: Contribution, r: Result<Contribution>)
    ensures Prepend(a, Prepend(c, r)) == Prepend(Contribution(a.rows + c.rows, a.images + c.images), r)
  {
    match r
    case Raised =>
    case Ok(d) =>
      assert a.rows + (c.rows + d.rows) == (a.rows + c.rows) + d.rows;
      assert a.images + (c.images + d.images) == (a.images + c.images) + d.images;
  }

  /** The product loop for a given per-product step: the contributions of all
      products in order, or Raised when the step raises for one of them. */
  function CollectWith(step: Json -> Result<Contribution>, items: seq<Json>): Result<Contribution>
    decreases |items|
  {
    if items == [] then Ok(Nothing)
    else
      match step(items[0])
      case Raised => Raised
      case Ok(c) => Prepend(c, CollectWith(step, items[1..]))
  }

  /** The loop taken up at index i: the step for items[i], then the rest. */
  lemma CollectFrom(step: Json -> Result<Contribution>, items: seq<Json>, i: nat)
    requires i < |items|
    ensures CollectWith(step, items[i..]) ==
              match step(items[i])
              case Raised => Raised
              case Ok(c) => Prepend(c, CollectWith(step, items[i + 1..]))
  {
    assert items[i..][0] == items[i] && items[i..][1..] == items[i + 1..];
  }

  function Step(ctx: Ctx): Json -> Result<Contribution> {
    item => ItemStep(item, ctx)
  }

  /** The scraper's product loop. */
  function Collect(items: seq<Json>, ctx: Ctx): Result<Contribution> {
    CollectWith(Step(ctx), items)
  }

  /** The category page's products: Raised when reading the query list
      raises, None when the product list is empty, else its elements. */
  function Products(nextData: Json): Result<Option<seq<Json>>> {
    match QueriesOf(nextData)
    case Raised => Raised
    case Ok(qv) =>
      match Iter(qv)
      case Raised => Raised
      case Ok(qs) =>
        match ProductCards(qs)
        case Raised => Raised
        case Ok(cards) =>
          if !Truthy(cards) then Ok(None)
          else
            match Iter(cards)
            case Raised => Raised
            case Ok(items) => Ok(Some(items))
  }

  /** What the run makes of a loaded category page. */
  function FromPage(page: Page, ctx: Ctx): Outcome {
    match page.nextData
    case None => Aborted(PageError)
    case Some(j) =>
      match Products(j)
      case Raised => Aborted(PageError)
      case Ok(None) => Aborted(NoProducts)
      case Ok(Some(items)) =>
        match Collect(items, ctx)
        case Raised => Aborted(PageError)
        case Ok(c) => Done(Report(c.rows, c.images, SafeTitle(page.title), ctx.currency))
  }

  /** The run as a whole: the storefront, its session file and the browser
      first, then the category page. */
  function Fetch(url: string, env: Env): Outcome {
    match SelectLocale(url)
    case None => Aborted(UnknownLocale)
    case Some(locale) =>
      if locale.AuthFile() !in env.files then Aborted(MissingAuthFile)
      else if !env.browserStarts then Aborted(BrowserFailed)
      else
        match env.category
        case None => Aborted(PageError)
        case Some(page) => FromPage(page, Ctx(CurrentCurrency(url), ArtistId(url), env.details, env.downloads))
  }

  /** Lines 108-121: opening the product page, finding its sale record and
      testing it for truth. */
  method FindSaleRecord(url: string, saleId: string, details: map<string, Json>) returns (r: Option<seq<(string, Json)>>)
    ensures r == SaleRecord(url, saleId, details)
  {
    if url !in details {
      return None;
    }
    var pq := QueriesOf(details[url]);
    if pq.Raised? {
      return None;
    }
    var qs := Iter(pq.value);
    if qs.Raised? {
      return None;
    }
    var found := FindFirst(qs.value, SaleDetail(saleId));
    if found.Raised? || found.value.None? || !Truthy(found.value.value) {
      return None;
    }
    return Some(found.value.value.fields);
  }

  /** Lines 122-144: the image download, then the rows. */
  method Contribute(detail: seq<(string, Json)>, name: string, url: string, safeName: string,
                    downloads: map<string, seq<bv8>>) returns (c: Contribution)
    ensures c == DetailContribution(detail, name, url, safeName, downloads)
  {
    var img := Thumbnail(detail);
    if img.Raised? {
      return Nothing;
    }
    var images := Downloaded(img.value, safeName, downloads);
    var rows := FlattenDetail(detail, Head(name, url, img.value));
    return Contribution(rows, images);
  }

  /** The loop body for one product (lines 101-146). */
  method ProcessItem(item: Json, ctx: Ctx) returns (r: Result<Contribution>)
    ensures r == ItemStep(item, ctx)
  {
    var nameValue := Subscript(item, "name");
    if nameValue.Raised? || !nameValue.value.JStr? {
      return Raised;
    }
    var name := nameValue.value.s;
    var safeName := Sanitize(name);
    var sid := Subscript(item, "saleId");
    if sid.Raised? {
      return Raised;
    }
    var saleId := PyStr(sid.value);
    var url := DetailUrl(ctx.currency, ctx.artistId, saleId);
    var detail := FindSaleRecord(url, saleId, ctx.details);
    if detail.None? {
      return Ok(Nothing);
    }
    var c := Contribute(detail.value, name, url, safeName, ctx.downloads);
    return Ok(c);
  }

  /** The product loop (lines 100-147): appends each product's rows and image
      in product order. */
  method CollectRows(items: seq<Json>, ctx: Ctx) returns (r: Result<Contribution>)
    ensures r == Collect(items, ctx)
  {
    var rows: seq<Row> := [];
    var images: seq<Image> := [];
    var i := 0;
    assert items[i..] == items;
    PrependNothing(Collect(items, ctx));
    while i < |items|
      invariant 0 <= i <= |items|
      invariant Collect(items, ctx) == Prepend(Contribution(rows, images), CollectWith(Step(ctx), items[i..]))
    {
      CollectFrom(Step(ctx), items, i);
      var step := ProcessItem(items[i], ctx);
      assert step == Step(ctx)(items[i]);
      if step.Raised? {
        return Raised;
      }
      PrependTwice(Contribution(rows, images), step.value, CollectWith(Step(ctx), items[i + 1..]));
      rows := rows + step.value.rows;
      images := images + step.value.images;
      i := i + 1;
    }
    assert items[i..] == [];
    assert rows + [] == rows && images + [] == images;
    return Ok(Contribution(rows, images));
  }

  /** Lines 81-100: the product list of the category page, with an empty
      list told apart from a failure, ready for the product loop. */
  method ListProducts(nextData: Json) returns (r: Result<Option<seq<Json>>>)
    ensures r == Products(nextData)
  {
    var queries := QueriesOf(nextData);
    if queries.Raised? {
      return Raised;
    }
    var qs := Iter(queries.value);
    if qs.Raised? {
      return Raised;
    }
    var found := FindFirst(qs.value, ProductList);
    if found.Raised? {
      return Raised;
    }
    var cards := if found.value.Some? then Lookup(found.value.value.fields, ProductCardsKey).value else JArr([]);
    if !Truthy(cards) {
      return Ok(None);
    }
    var items := Iter(cards);
    if items.Raised? {
      return Raised;
    }
    return Ok(Some(items.value));
  }

  /** `fetch_weverse_data` (lines 20-155). */
  method FetchWeverseData(url: string, env: Env) returns (r: Outcome)
    ensures r == Fetch(url, env)
  {
    var locale := SelectLocale(url);
    if locale.None? {
      return Aborted(UnknownLocale);
    }
    if locale.value.AuthFile() !in env.files {
      return Aborted(MissingAuthFile);
    }
    if !env.browserStarts {
      return Aborted(BrowserFailed);
    }
    var ctx := Ctx(CurrentCurrency(url), ArtistId(url), env.details, env.downloads);
    if env.category.None? {
      return Aborted(PageError);
    }
    var page := env.category.value;
    var title := SafeTitle(page.title);
    if page.nextData.None? {
      return Aborted(PageError);
    }
    var products := ListProducts(page.nextData.value);
    if products.Raised? {
      return Aborted(PageError);
    }
    if products.value.None? {
      return Aborted(NoProducts);
    }
    var collected := CollectRows(products.value.value, ctx);
    if collected.Raised? {
      return Aborted(PageError);
    }
    return Done(Report(collected.value.rows, collected.value.images, title, ctx.currency));
  }

  // Properties of the run.

  /** Products are processed in order: the result for two runs of products
      is the first's rows and images followed by the second's. */
  lemma {:induction false} CollectAppend(step: Json -> Result<Contribution>, a: seq<Json>, b: seq<Json>)
    ensures CollectWith(step, a + b) ==
              match CollectWith(step, a)
              case Raised => Raised
              case Ok(ca) => Prepend(ca, CollectWith(step, b))
    decreases |a|
  {
    if a == [] {
      assert a + b == b;
      match CollectWith(step, b)
      case Raised =>
      case Ok(cb) => assert Nothing.rows + cb.rows == cb.rows && Nothing.images + cb.images == cb.images;
    } else {
      assert (a + b)[0] == a[0] && (a + b)[1..] == a[1..] + b;
      CollectAppend(step, a[1..], b);
      match step(a[0])
      case Raised =>
      case Ok(c) =>
        match CollectWith(step, a[1..])
        case Raised =>
        case Ok(rest) =>
          match CollectWith(step, b)
          case Raised =>
          case Ok(cb) =>
            assert c.rows + (rest.rows + cb.rows) == (c.rows + rest.rows) + cb.rows;
            assert c.images + (rest.images + cb.images) == (c.images + rest.images) + cb.images;
    }
  }

  /** A product whose page did not load, or whose page has no sale record
      with its id, adds no row and no image. */
  lemma UnmatchedItemAddsNothing(item: Json, ctx: Ctx, name: string, sid: Json)
    requires Subscript(item, "name") == Ok(JStr(name)) && Subscript(item, "saleId") == Ok(sid)
    requires var url := DetailUrl(ctx.currency, ctx.artistId, PyStr(sid));
             || url !in ctx.details
             || (&& QueriesOf(ctx.details[url]).Ok?
                 && Iter(QueriesOf(ctx.details[url]).value).Ok?
                 && FirstMatch(Iter(QueriesOf(ctx.details[url]).value).value, SaleDetail(PyStr(sid))) == Ok(None))
    ensures ItemStep(item, ctx) == Ok(Nothing)
  {
  }

  /** A product the step skips leaves the accumulated output as it was. */
  lemma SkippedItemKeepsOutput(step: Json -> Result<Contribution>, items: seq<Json>, item: Json)
    requires step(item) == Ok(Nothing)
    ensures CollectWith(step, items + [item]) == CollectWith(step, items)
  {
    CollectAppend(step, items, [item]);
    assert [item][0] == item && [item][1..] == [];
    PrependNothing(CollectWith(step, []));
    assert CollectWith(step, [item]) == Ok(Nothing);
    match CollectWith(step, items)
    case Raised =>
    case Ok(c) => assert c.rows + [] == c.rows && c.images + [] == c.images;
  }

  /** A product whose step raises, after products whose steps did not, ends
      the product loop with an exception: nothing collected so far is kept. */
  lemma {:induction false} RaisingItemEndsRun(step: Json -> Result<Contribution>, items: seq<Json>, i: nat)
    requires i < |items| && step(items[i]).Raised?
    requires forall j :: 0 <= j < i ==> step(items[j]).Ok?
    ensures CollectWith(step, items) == Raised
    decreases i
  {
    if i > 0 {
      RaisingItemEndsRun(step, items[1..], i - 1);
    }
  }

  /** On the category page, such a product ends the whole run with a page
      error and no output. */
  lemma RaisingItemAbortsFetch(page: Page, ctx: Ctx, i: nat)
    requires page.nextData.Some? && Products(page.nextData.value).Ok? && Products(page.nextData.value).value.Some?
    requires var items := Products(page.nextData.value).value.value;
             && i < |items| && ItemStep(items[i], ctx).Raised?
             && forall j :: 0 <= j < i ==> ItemStep(items[j], ctx).Ok?
    ensures FromPage(page, ctx) == Aborted(PageError)
  {
    var items := Products(page.nextData.value).value.value;
    RaisingItemEndsRun(Step(ctx), items, i);
  }

  /** The file name of a downloaded image: a clean stem and ".jpg". */
  predicate IsImageName(f: string) {
    |f| >= |ImageSuffix| && f[|f| - |ImageSuffix|..] == ImageSuffix && IsClean(f[..|f| - |ImageSuffix|])
  }

  /** A clean stem with ".jpg" appended is an image name. */
  lemma ImageNameOfStem(stem: string)
    requires IsClean(stem)
    ensures IsImageName(stem + ImageSuffix)
  {
    var f := stem + ImageSuffix;
    assert f[..|f| - |ImageSuffix|] == stem;
    assert f[|f| - |ImageSuffix|..] == ImageSuffix;
  }

  /** A product's inner `try` adds at most one image, named after its stem. */
  lemma TryDetailImages(name: string, safeName: string, url: string, saleId: string, ctx: Ctx)
    ensures |TryDetail(name, safeName, url, saleId, ctx).images| <= 1
    ensures forall im :: im in TryDetail(name, safeName, url, saleId, ctx).images ==> im.fileName == safeName + ImageSuffix
  {
    match SaleRecord(url, saleId, ctx.details)
    case None =>
    case Some(d) =>
      match Thumbnail(d)
      case Raised =>
      case Ok(img) =>
        assert TryDetail(name, safeName, url, saleId, ctx).images == Downloaded(img, safeName, ctx.downloads);
  }

  lemma ItemImages(item: Json, ctx: Ctx)
    requires ItemStep(item, ctx).Ok?
    ensures |ItemStep(item, ctx).value.images| <= 1
    ensures forall im :: im in ItemStep(item, ctx).value.images ==>
              im.fileName == Sanitize(Subscript(item, "name").value.s) + ImageSuffix
    ensures forall im :: im in ItemStep(item, ctx).value.images ==> IsImageName(im.fileName)
  {
    var name := Subscript(item, "name").value.s;
    var saleId := PyStr(Subscript(item, "saleId").value);
    var url := DetailUrl(ctx.currency, ctx.artistId, saleId);
    assert ItemStep(item, ctx) == Ok(TryDetail(name, Sanitize(name), url, saleId, ctx));
    TryDetailImages(name, Sanitize(name), url, saleId, ctx);
    ImageNameOfStem(Sanitize(name));
  }

  /** Each product adds at most one image, and every image is named after a
      sanitised product name with ".jpg" appended. */
  lemma {:induction false} CollectImages(items: seq<Json>, ctx: Ctx)
    requires Collect(items, ctx).Ok?
    ensures |Collect(items, ctx).value.images| <= |items|
    ensures forall im :: im in Collect(items, ctx).value.images ==> IsImageName(im.fileName)
    decreases |items|
  {
    if items != [] {
      assert Step(ctx)(items[0]) == ItemStep(items[0], ctx);
      ItemImages(items[0], ctx);
      CollectImages(items[1..], ctx);
    }
  }

  /** Setup failures end the run before any page is opened: the outcome does
      not depend on what the pages or downloads would have given. */
  lemma SetupFailureOpensNoPage(url: string, e1: Env, e2: Env)
    requires e1.files == e2.files && e1.browserStarts == e2.browserStarts
    requires || SelectLocale(url).None?
             || SelectLocale(url).value.AuthFile() !in e1.files
             || !e1.browserStarts
    ensures Fetch(url, e1).Aborted? && Fetch(url, e1) == Fetch(url, e2)
  {
  }

  /** A category page whose product list is empty ends the run with no
      products, whatever the product pages and downloads would have given. */
  lemma EmptyProductListAborts(url: string, env: Env, details: map<string, Json>, downloads: map<string, seq<bv8>>)
    requires SelectLocale(url).Some? && SelectLocale(url).value.AuthFile() in env.files && env.browserStarts
    requires env.category.Some? && env.category.value.nextData.Some?
    requires var j := env.category.value.nextData.value;
             && QueriesOf(j).Ok? && Iter(QueriesOf(j).value).Ok?
             && ProductCards(Iter(QueriesOf(j).value).value).Ok?
             && !Truthy(ProductCards(Iter(QueriesOf(j).value).value).value)
    ensures Fetch(url, env) == Aborted(NoProducts)
    ensures Fetch(url, env.(details := details, downloads := downloads)) == Aborted(NoProducts)
  {
  }

  /** A finished run reports the storefront's currency, a clean title stem,
      and images that are each named after a clean stem with ".jpg". */
  lemma ReportIsWellFormed(url: string, env: Env)
    requires Fetch(url, env).Done?
    ensures SelectLocale(url).Some?
    ensures Fetch(url, env).report.currency == SelectLocale(url).value.Currency()
    ensures IsClean(Fetch(url, env).report.title)
    ensures forall im :: im in Fetch(url, env).report.images ==> IsImageName(im.fileName)
  {
    CurrencyAgreesWithLocale(url, SelectLocale(url).value);
    var ctx := Ctx(CurrentCurrency(url), ArtistId(url), env.details, env.downloads);
    var items := Products(env.category.value.nextData.value).value.value;
    CollectImages(items, ctx);
  }
}
