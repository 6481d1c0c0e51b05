/** The daily job of the application (internal/app/app.go): load the brand
    index, crawl every brand, then announce the new ads and the ads whose
    price changed, marking each ad as sent. The queries that choose those ads
    (NewAds, AdsWithNewPrice) and the subscriber broadcast are not part of
    this model: their results come in as parameters, and an announcement is
    recorded with whether it was delivered. */
module App {
  import opened Model
  import opened Parser
  import opened Postgres
  import opened Service

  const ChartUp: string := "📈"
  const ChartDown: string := "📉"

  /** The arrow of a price-change message: up exactly when the price rose. */
  function Arrow(c: Car): (r: string)
    ensures r == ChartUp <==> c.price > c.oldPrice
    ensures r == ChartUp || r == ChartDown
  {
    if c.price > c.oldPrice then ChartUp else ChartDown
  }

  /** Swapping the old and the new price turns the arrow over, unless the
      price did not change, which always shows the chart going down. */
  lemma ArrowSwap(c: Car)
    ensures c.price != c.oldPrice ==> Arrow(c) != Arrow(c.(price := c.oldPrice, oldPrice := c.price))
    ensures c.price == c.oldPrice ==> Arrow(c) == ChartDown
  {
  }

  /** An announcement: a new ad (arrow None) or a price change, and whether
      the broadcast reported success. */
  datatype Note = Note(arrow: Option<string>, car: Car, delivered: bool)

  function NewAdNotes(ads: seq<Car>, delivered: Car -> bool): seq<Note> {
    if ads == [] then []
    else NewAdNotes(ads[..|ads| - 1], delivered) + [Note(None, ads[|ads| - 1], delivered(ads[|ads| - 1]))]
  }

  function PriceNotes(cars: seq<Car>, delivered: Car -> bool): seq<Note> {
    if cars == [] then []
    else PriceNotes(cars[..|cars| - 1], delivered) + [Note(Some(Arrow(cars[|cars| - 1])), cars[|cars| - 1], delivered(cars[|cars| - 1]))]
  }

  function AdIds(ads: seq<Car>): seq<string> {
    if ads == [] then [] else AdIds(ads[..|ads| - 1]) + [ads[|ads| - 1].adId]
  }

  /** One note per ad, in order, each with its arrow. */
  lemma {:induction false} NotesPerAd(ads: seq<Car>, delivered: Car -> bool)
    ensures |NewAdNotes(ads, delivered)| == |PriceNotes(ads, delivered)| == |AdIds(ads)| == |ads|
    ensures forall i :: 0 <= i < |ads| ==>
      NewAdNotes(ads, delivered)[i] == Note(None, ads[i], delivered(ads[i])) &&
      PriceNotes(ads, delivered)[i] == Note(Some(Arrow(ads[i])), ads[i], delivered(ads[i])) &&
      AdIds(ads)[i] == ads[i].adId
  {
    if ads != [] {
      NotesPerAd(ads[..|ads| - 1], delivered);
    }
  }

  /** What the announcement part of the job sends and marks. */
  datatype Sent = Sent(notes: seq<Note>, marked: seq<string>)

  /** A NewAds error, or no new ads, ends the job before the price changes
      are fetched. */
  function Announced(newAds: Result<seq<Car>>, priceAds: Result<seq<Car>>, delivered: Car -> bool): Sent {
    if newAds.Err? || newAds.value == [] then Sent([], [])
    else
      var first := Sent(NewAdNotes(newAds.value, delivered), AdIds(newAds.value));
      if priceAds.Err? || priceAds.value == [] then first
      else Sent(first.notes + PriceNotes(priceAds.value, delivered), first.marked + AdIds(priceAds.value))
  }

  /** Every announced ad is marked sent, delivered or not: the marks are the
      ids of the announced cars, in order. */
  lemma {:induction false} EveryAnnouncedAdMarked(newAds: Result<seq<Car>>, priceAds: Result<seq<Car>>, delivered: Car -> bool)
    ensures var r := Announced(newAds, priceAds, delivered);
      |r.marked| == |r.notes| && forall i :: 0 <= i < |r.notes| ==> r.marked[i] == r.notes[i].car.adId
  {
    if newAds.Ok? {
      NotesPerAd(newAds.value, delivered);
    }
    if priceAds.Ok? {
      NotesPerAd(priceAds.value, delivered);
    }
  }

  /** Without new ads, price changes are never announced. */
  lemma NoNewAdsNoPriceNotes(newAds: Result<seq<Car>>, priceAds: Result<seq<Car>>, delivered: Car -> bool)
    requires newAds.Err? || newAds.value == []
    ensures Announced(newAds, priceAds, delivered) == Sent([], [])
  {
  }

  /** The cars table only grows: no row is removed or changed. */
  ghost predicate Grows(before: CarTable, after: CarTable) {
    forall k :: k in before ==> k in after && after[k] == before[k]
  }

  /** The table after crawling the brands of `order` one after another:
      each brand's crawl starts from the table the previous one left, and a
      brand that fails still leaves the rows of the pages it saved. */
  function CrawlEach(env: Env, site: string, brands: map<string, string>, order: seq<string>, cars: CarTable): CarTable
    requires Relents(env)
  {
    if order == [] then cars
    else CrawlBrand(env, site, brands, order[|order| - 1], CrawlEach(env, site, brands, order[..|order| - 1], cars)).cars
  }

  /** Crawling any sequence of brands keeps every row the table had. */
  lemma {:induction false} CrawlEachGrows(env: Env, site: string, brands: map<string, string>, order: seq<string>, cars: CarTable)
    requires Relents(env)
    ensures Grows(cars, CrawlEach(env, site, brands, order, cars))
  {
    if order != [] {
      var before := CrawlEach(env, site, brands, order[..|order| - 1], cars);
      CrawlEachGrows(env, site, brands, order[..|order| - 1], cars);
      CrawlBrandFacts(env, site, brands, order[|order| - 1], before);
    }
  }

  class App {
    const parser: CarParsingService
    /** The announcements made, in order. */
    var notes: seq<Note>
    /** The ad ids marked sent (AdSent), in order. */
    var marked: seq<string>

    constructor (parser: CarParsingService)
      ensures this.parser == parser && notes == [] && marked == []
    {
      this.parser := parser;
      notes := [];
      marked := [];
    }

    /** The announcement loop: one broadcast and one mark per ad. */
    method Announce(ads: seq<Car>, priced: bool, delivered: Car -> bool)
      modifies this
      ensures notes == old(notes) + (if priced then PriceNotes(ads, delivered) else NewAdNotes(ads, delivered))
      ensures marked == old(marked) + AdIds(ads)
    {
      for i := 0 to |ads|
        invariant notes == old(notes) + (if priced then PriceNotes(ads[..i], delivered) else NewAdNotes(ads[..i], delivered))
        invariant marked == old(marked) + AdIds(ads[..i])
      {
        assert ads[..i + 1][..i] == ads[..i];
        var arrow := if priced then Some(Arrow(ads[i])) else None;
        notes := notes + [Note(arrow, ads[i], delivered(ads[i]))];
        marked := marked + [ads[i].adId];
      }
      assert ads[..|ads|] == ads;
    }

    /** The brand loop: every brand of the map is crawled once, in an order
        the map leaves open; an error ends that brand only. */
    method CrawlAll(env: Env) returns (ghost tried: seq<string>)
      requires Relents(env)
      modifies parser.repo
      ensures parser.repo.users == old(parser.repo.users)
      ensures parser.repo.cars == CrawlEach(env, parser.targetSite, parser.brands, tried, old(parser.repo.cars))
      ensures Grows(old(parser.repo.cars), parser.repo.cars)
      ensures forall b :: b in tried <==> b in parser.brands
      ensures |tried| == |parser.brands|
    {
      tried := [];
      var brands := parser.CarBrands();
      var left := brands.Keys;
      while left != {}
        invariant left <= brands.Keys
        invariant forall b :: b in tried <==> b in brands && b !in left
        invariant |tried| + |left| == |brands.Keys|
        invariant parser.repo.users == old(parser.repo.users)
        invariant parser.repo.cars == CrawlEach(env, parser.targetSite, brands, tried, old(parser.repo.cars))
        decreases |left|
      {
        var b :| b in left;
        var e, visited, saved, sleeps := parser.ParseAdsByBrand(env, b);
        left := left - {b};
        assert (tried + [b])[..|tried|] == tried;
        tried := tried + [b];
      }
      assert |brands.Keys| == |brands|;
      CrawlEachGrows(env, parser.targetSite, brands, tried, old(parser.repo.cars));
    }

    /** The announcement part: new ads, then, when there were any, the ads
        whose price changed. */
    method AnnounceAll(newAds: Result<seq<Car>>, priceAds: Result<seq<Car>>, delivered: Car -> bool)
      modifies this
      ensures notes == old(notes) + Announced(newAds, priceAds, delivered).notes
      ensures marked == old(marked) + Announced(newAds, priceAds, delivered).marked
    {
      if newAds.Err? || |newAds.value| == 0 {
        return;
      }
      Announce(newAds.value, false, delivered);
      if priceAds.Err? || |priceAds.value| == 0 {
        return;
      }
      Announce(priceAds.value, true, delivered);
    }

    /** The body of the cron job. `index` is the brand index page, `env` the
        crawl's world, `newAds` and `priceAds` what the two queries return
        after the crawl, `delivered` the broadcast's outcome per car. */
    method Cycle(index: Fetch<Doc<seq<Anchor>>>, env: Env, newAds: Result<seq<Car>>, priceAds: Result<seq<Car>>, delivered: Car -> bool)
      returns (ghost tried: seq<string>)
      requires Relents(env)
      modifies this, parser, parser.repo
      ensures parser.repo.users == old(parser.repo.users)
      ensures Grows(old(parser.repo.cars), parser.repo.cars)
      ensures CarBrandsOf(index).Err? ==>
        tried == [] && parser.repo.cars == old(parser.repo.cars) && notes == old(notes) && marked == old(marked)
      ensures CarBrandsOf(index).Ok? ==>
        parser.brands == CarBrandsOf(index).value &&
        parser.repo.cars == CrawlEach(env, parser.targetSite, parser.brands, tried, old(parser.repo.cars)) &&
        (forall b :: b in tried <==> b in CarBrandsOf(index).value) &&
        |tried| == |CarBrandsOf(index).value| &&
        notes == old(notes) + Announced(newAds, priceAds, delivered).notes &&
        marked == old(marked) + Announced(newAds, priceAds, delivered).marked
    {
      tried := [];
      var err := parser.LoadCarBrands(index);
      if err.Some? {
        return;
      }
      tried := CrawlAll(env);
      AnnounceAll(newAds, priceAds, delivered);
    }
  }
}
