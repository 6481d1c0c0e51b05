/** The page parser (internal/parser/parser.go): how an HTTP answer is
    classified, and what is made of the strings the HTML selectors pick out
    of a page — the page count, the brand index, the ad links and the fields
    of one ad. Fetching and HTML selection are foreign code: a page reaches
    the model as a `Fetch` (the HTTP answer) whose body is a `Doc` (whether
    the document loaded, and if so the strings its selectors return). */
module Parser {
  import opened Model
  import opened Text

  /** One HTTP GET as the client reports it. */
  datatype Fetch<B> = TransportError | Response(code: int, body: B)

  /** A body handed to goquery: it either fails to load or yields the
      selected strings. */
  datatype Doc<T> = NotLoaded | Loaded(sel: T)

  const StatusOK: int := 200
  const StatusForbiddenCode: int := 403
  const StatusNotFoundCode: int := 404

  // ---------------------------------------------------------------------
  // urlBody: response classification (sections 15.3.1, 15.5.4 and 15.5.5
  // of RFC 9110 give 200, 403 and 404 their meanings)
  // ---------------------------------------------------------------------

  function UrlBody<B>(f: Fetch<B>): (r: Result<B>)
    ensures r.Ok? <==> f.Response? && f.code == StatusOK
    ensures r.Ok? ==> r.value == f.body
    ensures r == Err(StatusNotFound) <==> f.Response? && f.code == StatusNotFoundCode
    ensures r == Err(StatusForbidden) <==> f.Response? && f.code == StatusForbiddenCode
    ensures f.Response? && f.code != StatusOK && f.code != StatusNotFoundCode && f.code != StatusForbiddenCode
            ==> r == Err(StatusCode(f.code))
    ensures f.TransportError? ==> r == Err(Transport)
  {
    match f
    case TransportError => Err(Transport)
    case Response(code, body) =>
      if code != StatusOK then
        if code == StatusNotFoundCode then Err(StatusNotFound)
        else if code == StatusForbiddenCode then Err(StatusForbidden)
        else Err(StatusCode(code))
      else Ok(body)
  }

  // ---------------------------------------------------------------------
  // TotalPages / extractTotalPages: the text of the last pager link
  // ---------------------------------------------------------------------

  function ExtractTotalPages(doc: Doc<string>): (r: Result<int>)
  {
    match doc
    case NotLoaded => Err(Unloadable)
    case Loaded(pager) =>
      if pager == "" then Ok(1)
      else
        var n := Atoi(pager);
        if n.err.Some? then Err(BadNumber(pager)) else Ok(n.value)
  }

  function TotalPages(f: Fetch<Doc<string>>): Result<int> {
    match UrlBody(f)
    case Err(e) => Err(e)
    case Ok(doc) => ExtractTotalPages(doc)
  }

  /** No pager gives one page; a pager printing a number gives that number. */
  lemma TotalPagesReadsPager(n: int)
    requires MinInt64 <= n <= MaxInt64
    ensures ExtractTotalPages(Loaded("")) == Ok(1)
    ensures ExtractTotalPages(Loaded(Itoa(n))) == Ok(n)
  {
    AtoiItoa(n);
  }

  /** The page count is read if and only if the pager is empty or an int64
      text, and any other pager text is an error carrying that text. */
  lemma TotalPagesExactly(pager: string)
    ensures ExtractTotalPages(Loaded(pager)).Ok? <==> pager == [] || Int64Text(pager)
    ensures pager != [] && Int64Text(pager) ==> ExtractTotalPages(Loaded(pager)) == Ok(Int64Value(pager))
    ensures pager != [] && !Int64Text(pager) ==> ExtractTotalPages(Loaded(pager)) == Err(BadNumber(pager))
  {
    AtoiExactly(pager);
  }

  // ---------------------------------------------------------------------
  // parseDriveType
  // ---------------------------------------------------------------------

  function ParseDriveType(drive: string): string {
    if Contains(drive, DriveAll) then DriveAll
    else if Contains(drive, DriveRear) then DriveRear
    else DriveFront
  }

  /** "AWD" anywhere in the text wins, then "RWD"; anything else, the empty
      text included, is front-wheel drive. */
  lemma ParseDriveTypeChoice(drive: string)
    ensures (ParseDriveType(drive) == DriveAll <==> Occurs(DriveAll, drive))
    ensures ParseDriveType(drive) == DriveRear <==> !Occurs(DriveAll, drive) && Occurs(DriveRear, drive)
    ensures ParseDriveType(drive) == DriveFront <==> !Occurs(DriveAll, drive) && !Occurs(DriveRear, drive)
  {
    ContainsOccurs(drive, DriveAll);
    ContainsOccurs(drive, DriveRear);
  }

  // ---------------------------------------------------------------------
  // The price: the `content` attribute up to its first '.'
  // ---------------------------------------------------------------------

  /** strings.Split(content, ".")[0]. */
  function PriceText(content: string): (r: string)
    ensures HasPrefix(content, r)
    ensures '.' !in r
    ensures |r| < |content| ==> content[|r|] == '.'
  {
    if content == [] || content[0] == '.' then []
    else [content[0]] + PriceText(content[1..])
  }

  // ---------------------------------------------------------------------
  // extractCarManufacturers: brand name -> link
  // ---------------------------------------------------------------------

  /** One `.rubrics-list.toggle-content a` element: its text and its href
      ("" when the attribute is missing). */
  datatype Anchor = Anchor(text: string, href: string)

  function BrandName(text: string): string {
    TrimSpace(TrimSuffix(text, "&nbsp;"))
  }

  /** The map the loop builds: each anchor in document order sets its
      brand name to its link. */
  function BrandIndex(anchors: seq<Anchor>): map<string, string> {
    if anchors == [] then map[]
    else
      var a := anchors[|anchors| - 1];
      BrandIndex(anchors[..|anchors| - 1])[BrandName(a.text) := a.href]
  }

  /** Every anchor contributes its brand name, and nothing else is a key. */
  lemma {:induction false} BrandIndexKeys(anchors: seq<Anchor>)
    ensures BrandIndex(anchors).Keys == set a | a in anchors :: BrandName(a.text)
  {
    if anchors != [] {
      var init := anchors[..|anchors| - 1];
      var last := anchors[|anchors| - 1];
      BrandIndexKeys(init);
      assert anchors == init + [last];
      var want := set a | a in anchors :: BrandName(a.text);
      var prev := set a | a in init :: BrandName(a.text);
      assert want == prev + {BrandName(last.text)};
    }
  }

  /** A later anchor with the same brand name overwrites the earlier link:
      the link kept is that of the last anchor carrying the name. */
  lemma {:induction false} BrandIndexLastWins(anchors: seq<Anchor>, i: int)
    requires 0 <= i < |anchors|
    requires forall j :: i < j < |anchors| ==> BrandName(anchors[j].text) != BrandName(anchors[i].text)
    ensures BrandName(anchors[i].text) in BrandIndex(anchors)
    ensures BrandIndex(anchors)[BrandName(anchors[i].text)] == anchors[i].href
  {
    if i < |anchors| - 1 {
      var init := anchors[..|anchors| - 1];
      assert init[i] == anchors[i];
      BrandIndexLastWins(init, i);
    }
  }

  method ExtractCarManufacturers(doc: Doc<seq<Anchor>>) returns (r: Result<map<string, string>>)
    ensures r == (if doc.NotLoaded? then Err(Unloadable) else Ok(BrandIndex(doc.sel)))
  {
    if doc.NotLoaded? {
      return Err(Unloadable);
    }
    var anchors := doc.sel;
    var result: map<string, string> := map[];
    for i := 0 to |anchors|
      invariant result == BrandIndex(anchors[..i])
    {
      assert anchors[..i + 1][..i] == anchors[..i];
      result := result[BrandName(anchors[i].text) := anchors[i].href];
    }
    assert anchors[..|anchors|] == anchors;
    return Ok(result);
  }

  /** What ParseCarBrands returns for a fetched index page. */
  function CarBrandsOf(f: Fetch<Doc<seq<Anchor>>>): Result<map<string, string>> {
    match UrlBody(f)
    case Err(e) => Err(e)
    case Ok(doc) => if doc.NotLoaded? then Err(Unloadable) else Ok(BrandIndex(doc.sel))
  }

  method ParseCarBrands(f: Fetch<Doc<seq<Anchor>>>) returns (r: Result<map<string, string>>)
    ensures r == CarBrandsOf(f)
    ensures r.Ok? ==> f.Response? && f.code == StatusOK
  {
    var body := UrlBody(f);
    if body.Err? {
      return Err(body.error);
    }
    r := ExtractCarManufacturers(body.value);
  }

  // ---------------------------------------------------------------------
  // extractAdList: ad links in document order, query removed
  // ---------------------------------------------------------------------

  /** A URL as url.Parse splits it: everything String() prints before the
      query, the raw query, whether the text ended in a bare "?" (url.Parse
      then sets ForceQuery and leaves the query empty), and the fragment. */
  datatype Url = Url(head: string, rawQuery: string, forceQuery: bool, fragment: string)

  /** URL.String: the "?" is printed when there is a query or ForceQuery is
      set. */
  function UrlString(u: Url): string {
    u.head + (if u.forceQuery || u.rawQuery != "" then "?" + u.rawQuery else "")
      + (if u.fragment != "" then "#" + u.fragment else "")
  }

  /** The link kept for one ad: the URL printed with its query cleared. An
      href that ended in a bare "?" keeps that "?", because clearing the
      query leaves ForceQuery set. */
  function StripQuery(u: Url): (r: string)
    ensures r == UrlString(u.(rawQuery := ""))
    ensures HasPrefix(r, u.head)
    ensures u.forceQuery <==> |r| > |u.head| && r[|u.head|] == '?'
  {
    u.head + (if u.forceQuery then "?" else "") + (if u.fragment != "" then "#" + u.fragment else "")
  }

  /** The list the loop builds from the first link of every `.advert__body`
      (None where url.Parse refused the href). */
  function AdLinks(hrefs: seq<Option<Url>>): seq<string> {
    if hrefs == [] then []
    else
      var rest := AdLinks(hrefs[..|hrefs| - 1]);
      match hrefs[|hrefs| - 1]
      case None => rest
      case Some(u) => rest + [StripQuery(u)]
  }

  /** Links keep document order: the links of a page are those of its first
      part followed by those of the rest. */
  lemma {:induction false} AdLinksAppend(a: seq<Option<Url>>, b: seq<Option<Url>>)
    ensures AdLinks(a + b) == AdLinks(a) + AdLinks(b)
    decreases |b|
  {
    if b != [] {
      var b' := b[..|b| - 1];
      assert (a + b)[..|a + b| - 1] == a + b';
      AdLinksAppend(a, b');
    } else {
      assert a + b == a;
    }
  }

  /** Unparsable hrefs are skipped: one link per parsable href and no more. */
  lemma {:induction false} AdLinksCount(hrefs: seq<Option<Url>>)
    ensures |AdLinks(hrefs)| == |set i | 0 <= i < |hrefs| && hrefs[i].Some?|
  {
    if hrefs != [] {
      var init := hrefs[..|hrefs| - 1];
      AdLinksCount(init);
      var all := set i | 0 <= i < |hrefs| && hrefs[i].Some?;
      var before := set i | 0 <= i < |init| && init[i].Some?;
      assert forall i :: 0 <= i < |init| ==> init[i] == hrefs[i];
      if hrefs[|hrefs| - 1].Some? {
        assert all == before + {|hrefs| - 1};
      } else {
        assert all == before;
      }
    }
  }

  /** Every collected link is the query-free form of some parsable href. */
  lemma {:induction false} AdLinksStripped(hrefs: seq<Option<Url>>, k: int)
    requires 0 <= k < |AdLinks(hrefs)|
    ensures exists i :: 0 <= i < |hrefs| && hrefs[i].Some? && AdLinks(hrefs)[k] == StripQuery(hrefs[i].value)
  {
    var init := hrefs[..|hrefs| - 1];
    assert forall i :: 0 <= i < |init| ==> init[i] == hrefs[i];
    if k < |AdLinks(init)| {
      AdLinksStripped(init, k);
      var i :| 0 <= i < |init| && init[i].Some? && AdLinks(init)[k] == StripQuery(init[i].value);
      assert hrefs[i] == init[i];
    } else {
      assert hrefs[|hrefs| - 1].Some? && AdLinks(hrefs)[k] == StripQuery(hrefs[|hrefs| - 1].value);
    }
  }

  method ExtractAdList(doc: Doc<seq<Option<Url>>>) returns (r: Result<seq<string>>)
    ensures r == (if doc.NotLoaded? then Err(Unloadable) else Ok(AdLinks(doc.sel)))
  {
    if doc.NotLoaded? {
      return Err(Unloadable);
    }
    var hrefs := doc.sel;
    var result: seq<string> := [];
    for i := 0 to |hrefs|
      invariant result == AdLinks(hrefs[..i])
    {
      assert hrefs[..i + 1][..i] == hrefs[..i];
      match hrefs[i]
      case None =>
      case Some(u) =>
        result := result + [StripQuery(u)];
    }
    assert hrefs[..|hrefs|] == hrefs;
    return Ok(result);
  }

  /** What ParseAdList returns for a fetched list page. */
  function AdListOf(f: Fetch<Doc<seq<Option<Url>>>>): Result<seq<string>> {
    match UrlBody(f)
    case Err(e) => Err(e)
    case Ok(doc) => if doc.NotLoaded? then Err(Unloadable) else Ok(AdLinks(doc.sel))
  }

  method ParseAdList(f: Fetch<Doc<seq<Option<Url>>>>) returns (r: Result<seq<string>>)
    ensures r == AdListOf(f)
  {
    var body := UrlBody(f);
    if body.Err? {
      return Err(body.error);
    }
    r := ExtractAdList(body.value);
  }

  // ---------------------------------------------------------------------
  // extractCarData: the fields of one ad
  // ---------------------------------------------------------------------

  /** A `.key-chars` label and the text of the element after it. */
  datatype KeyChar = KeyChar(key: string, value: string)

  /** A `meta` element of the price block: its itemprop and content
      attributes, None when missing. */
  datatype Meta = Meta(itemprop: Option<string>, content: Option<string>)

  /** The strings the selectors of an ad page return. */
  datatype CarDoc = CarDoc(
    model: string,           // last breadcrumb
    manufacturer: string,    // the breadcrumb before it
    posted: string,          // .date-meta
    adId: string,            // .number-announcement span
    address: string,         // .announcement__location span
    chars: seq<KeyChar>,     // .chars-column .key-chars, in document order
    description: string,     // .js-description
    prices: seq<Meta>)       // .announcement-price__cost meta, in document order

  /** What the ad parser takes from its host: today's and yesterday's date
      as "02.01.2006 " prints them, time.Parse with layout "02.01.2006 15:04",
      and the value strconv.ParseFloat(_, 64) assigns. */
  datatype Host = Host(
    today: string,
    yesterday: string,
    parseTime: string -> Option<Instant>,
    parseFloat: string -> real)

  /** The posted text after the label is stripped and "Yesterday " or
      "Today " is replaced by the date. */
  function PostedText(raw: string, host: Host): string {
    var t := TrimLeft(raw, "Posted: ");
    var t' := if HasPrefix(t, "Yesterday ") then host.yesterday + TrimLeft(t, "Yesterday ") else t;
    if HasPrefix(t', "Today ") then host.today + TrimLeft(t', "Today ") else t'
  }

  /** "Posted: Today 14:06" becomes today's date followed by "14:06". */
  lemma PostedTextToday(time: string, host: Host)
    requires time != [] && IsDigit(time[0])
    ensures PostedText("Posted: Today " + time, host) == host.today + time
  {
    var cut := "Posted: ";
    assert "Posted: Today " + time == "Posted: " + ("Today " + time);
    TrimLeftStops("Posted: ", "Today " + time, cut);
    var t := "Today " + time;
    assert !HasPrefix(t, "Yesterday ") by { assert t[1] != "Yesterday "[1]; }
    assert HasPrefix(t, "Today ") by { assert t[..6] == "Today "; }
    TrimLeftStops("Today ", time, "Today ");
  }

  /** "Posted: Yesterday 14:06" becomes yesterday's date followed by "14:06",
      provided that date does not itself start with "Today ". */
  lemma PostedTextYesterday(time: string, host: Host)
    requires time != [] && IsDigit(time[0])
    requires !HasPrefix(host.yesterday + time, "Today ")
    ensures PostedText("Posted: Yesterday " + time, host) == host.yesterday + time
  {
    assert "Posted: Yesterday " + time == "Posted: " + ("Yesterday " + time);
    TrimLeftStops("Posted: ", "Yesterday " + time, "Posted: ");
    var t := "Yesterday " + time;
    assert HasPrefix(t, "Yesterday ") by { assert t[..10] == "Yesterday "; }
    assert t == "Yesterday " + time;
    TrimLeftStops("Yesterday ", time, "Yesterday ");
  }

  /** A date that is already written out is handed to time.Parse as it is. */
  lemma PostedTextDate(date: string, host: Host)
    requires date != [] && IsDigit(date[0])
    ensures PostedText("Posted: " + date, host) == date
  {
    TrimLeftStops("Posted: ", date, "Posted: ");
  }

  /** The value next to the last label `key`, if any. */
  function LastValue(chars: seq<KeyChar>, key: string): Option<string> {
    if chars == [] then None
    else if chars[|chars| - 1].key == key then Some(chars[|chars| - 1].value)
    else LastValue(chars[..|chars| - 1], key)
  }

  /** The content of the last meta whose itemprop is "price" ("" when it has
      no content attribute). */
  function LastPrice(prices: seq<Meta>): Option<string> {
    if prices == [] then None
    else if prices[|prices| - 1].itemprop == Some("price") then Some(prices[|prices| - 1].content.GetOr(""))
    else LastPrice(prices[..|prices| - 1])
  }

  const LabelYear: string := "Year:"
  const LabelDrive: string := "Drive:"
  const LabelPower: string := "Power:"
  const LabelColour: string := "Colour:"
  const LabelGearbox: string := "Gearbox:"
  const LabelMileage: string := "Mileage (in km):"
  const LabelFuel: string := "Fuel type:"
  const LabelEngine: string := "Engine size:"

  // What each label's text becomes; a parse failure leaves Atoi's value.
  function YearText(v: string): int { Atoi(v).value }
  function PowerText(v: string): int { Atoi(TrimRight(v, " hp")).value }
  function MileageText(v: string): int { Atoi(TrimRight(v, " km")).value }
  function EngineText(v: string, host: Host): real { host.parseFloat(ReplaceAll(TrimRight(v, "L"), ",", ".")) }
  function PriceValue(content: string): int { Atoi(PriceText(content)).value }

  /** The fields the characteristics list sets: each label's LAST
      occurrence decides its field; a missing label leaves the zero value. */
  function WithChars(c: Car, chars: seq<KeyChar>, host: Host): Car {
    c.(
      year := match LastValue(chars, LabelYear) { case None => c.year case Some(v) => YearText(v) },
      drive := match LastValue(chars, LabelDrive) { case None => c.drive case Some(v) => ParseDriveType(v) },
      power := match LastValue(chars, LabelPower) { case None => c.power case Some(v) => PowerText(v) },
      color := match LastValue(chars, LabelColour) { case None => c.color case Some(v) => ToLower(v) },
      automaticGearbox := match LastValue(chars, LabelGearbox) { case None => c.automaticGearbox case Some(v) => v == "Automatic" },
      mileage := match LastValue(chars, LabelMileage) { case None => c.mileage case Some(v) => MileageText(v) },
      fuel := match LastValue(chars, LabelFuel) { case None => c.fuel case Some(v) => v },
      engineSize := match LastValue(chars, LabelEngine) { case None => c.engineSize case Some(v) => EngineText(v, host) })
  }

  function Description(text: string): string {
    TrimSpace(ReplaceAll(ReplaceAll(text, "<p>", ""), "</p>", "\n"))
  }

  /** The car extractCarData returns: an error only when the document does
      not load or the posted date does not parse. */
  function CarData(doc: Doc<CarDoc>, host: Host): (r: Result<Car>)
    ensures r.Err? <==> doc.NotLoaded? || host.parseTime(PostedText(doc.sel.posted, host)).None?
  {
    match doc
    case NotLoaded => Err(Unloadable)
    case Loaded(d) =>
      var t := PostedText(d.posted, host);
      match host.parseTime(t)
      case None => Err(BadPostedDate(t))
      case Some(at) =>
        var head := ZeroCar.(model := d.model, manufacturer := d.manufacturer, posted := at,
                             adId := d.adId, address := d.address);
        var c := WithChars(head, d.chars, host).(description := Description(d.description));
        Ok(c.(price := match LastPrice(d.prices) { case None => 0 case Some(p) => PriceValue(p) }))
  }

  /** A characteristic that fails to parse does not fail the ad: the year,
      power, mileage and price keep the value Atoi assigned (0 for text that
      is not a number). */
  lemma CarDataSwallowsBadNumbers(d: CarDoc, host: Host, v: string)
    requires host.parseTime(PostedText(d.posted, host)).Some?
    requires LastValue(d.chars, LabelYear) == Some(v) && Atoi(v).err == Some(ErrSyntax)
    ensures CarData(Loaded(d), host).Ok? && CarData(Loaded(d), host).value.year == 0
  {
  }

  /** The characteristics loop of extractCarData: each labelled value is
      parsed into its field, so the last occurrence of a label wins. */
  method ReadChars(head: Car, chars: seq<KeyChar>, host: Host) returns (carData: Car)
    ensures carData == WithChars(head, chars, host)
  {
    carData := head;
    for i := 0 to |chars|
      invariant carData == WithChars(head, chars[..i], host)
    {
      assert chars[..i + 1][..i] == chars[..i];
      var key, text := chars[i].key, chars[i].value;
      if key == LabelYear {
        carData := carData.(year := YearText(text));
      } else if key == LabelDrive {
        carData := carData.(drive := ParseDriveType(text));
      } else if key == LabelPower {
        carData := carData.(power := PowerText(text));
      } else if key == LabelColour {
        carData := carData.(color := ToLower(text));
      } else if key == LabelGearbox {
        carData := carData.(automaticGearbox := text == "Automatic");
      } else if key == LabelMileage {
        carData := carData.(mileage := MileageText(text));
      } else if key == LabelFuel {
        carData := carData.(fuel := text);
      } else if key == LabelEngine {
        carData := carData.(engineSize := EngineText(text, host));
      }
    }
    assert chars[..|chars|] == chars;
  }

  /** The price loop of extractCarData: the last meta tag whose itemprop is
      "price" sets the price; without one the price stays 0. */
  method ReadPrice(prices: seq<Meta>) returns (price: int)
    ensures price == match LastPrice(prices) { case None => 0 case Some(p) => PriceValue(p) }
  {
    price := 0;
    for i := 0 to |prices|
      invariant price == match LastPrice(prices[..i]) { case None => 0 case Some(p) => PriceValue(p) }
    {
      assert prices[..i + 1][..i] == prices[..i];
      if prices[i].itemprop == Some("price") {
        price := PriceValue(prices[i].content.GetOr(""));
      }
    }
    assert prices[..|prices|] == prices;
  }

  method ExtractCarData(doc: Doc<CarDoc>, host: Host) returns (r: Result<Car>)
    ensures r == CarData(doc, host)
  {
    if doc.NotLoaded? {
      return Err(Unloadable);
    }
    var d := doc.sel;
    var carData := ZeroCar;
    carData := carData.(model := d.model, manufacturer := d.manufacturer);
    var postedTxt := PostedText(d.posted, host);
    var posted := host.parseTime(postedTxt);
    if posted.None? {
      return Err(BadPostedDate(postedTxt));
    }
    carData := carData.(posted := posted.value, adId := d.adId, address := d.address);
    carData := ReadChars(carData, d.chars, host);
    carData := carData.(description := Description(d.description));
    var price := ReadPrice(d.prices);
    return Ok(carData.(price := price));
  }

  /** What ParseCarPage returns for one fetch of the ad at `url`. */
  function CarPage(url: string, f: Fetch<Doc<CarDoc>>, host: Host): (r: Result<Car>)
    ensures r == Err(StatusForbidden) <==> f.Response? && f.code == StatusForbiddenCode
    ensures r.Ok? ==> r.value.link == url
  {
    match UrlBody(f)
    case Err(e) => Err(e)
    case Ok(doc) =>
      match CarData(doc, host)
      case Err(e) => Err(e)
      case Ok(c) => Ok(c.(link := url))
  }

  method ParseCarPage(url: string, f: Fetch<Doc<CarDoc>>, host: Host) returns (r: Result<Car>)
    ensures r == CarPage(url, f, host)
  {
    var body := UrlBody(f);
    if body.Err? {
      return Err(body.error);
    }
    var carData := ExtractCarData(body.value, host);
    if carData.Err? {
      return Err(carData.error);
    }
    return Ok(carData.value.(link := url));
  }
}
