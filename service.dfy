/** The crawl service (internal/service/service.go). `CarParsingService`
    keeps the brand index of the target site and walks one brand's listing
    pages, fetching every ad, retrying an ad for as long as the site answers
    403, and saving each page's cars in one insert.

    Everything the crawl cannot decide itself is an `Env`: the answers of
    the site, the random jitter of the back-off, the cancellation of the
    context at each point where it is consulted, and whether the database
    refuses a page's insert. */
module Service {
  import opened Model
  import opened Parser
  import opened Postgres

  /** carUrl: the index page of car brands, below the target site. */
  const CarPath: string := "/car-motorbikes-boats-and-parts/cars-trucks-and-vans/"

  /** The back-off wait on a 403 is one second plus rand.Intn(2500) ms. */
  const BaseDelay: int := 1000
  const JitterBound: int := 2500
  type Jitter = j: int | 0 <= j < 2500

  /** Every wait lasts at least one second and less than 3.5 seconds. */
  predicate WaitsInRange(sleeps: seq<int>) {
    forall i :: 0 <= i < |sleeps| ==> BaseDelay <= sleeps[i] < BaseDelay + JitterBound
  }

  /** The points where ParseAdsByBrand consults ctx.Err(): before fetching
      the list of a page, and before the index-th ad link of a page. */
  datatype Checkpoint = BeforePage(brand: string, page: int) | BeforeAd(brand: string, page: int, index: int)

  datatype Env = Env(
    joinPath: (string, string) -> Option<string>,  // url.JoinPath and url.Parse; None on error
    pager: string -> Fetch<Doc<string>>,           // the brand page as TotalPages sees it
    list: (string, int) -> Fetch<Doc<seq<Option<Url>>>>,  // page i of a brand page
    car: (string, nat) -> Fetch<Doc<CarDoc>>,      // the k-th attempt at an ad url
    relent: string -> nat,                         // an attempt the site answers other than 403
    jitter: (string, nat) -> Jitter,               // rand.Intn(2500) after the k-th attempt
    cancelled: Checkpoint -> bool,                 // ctx.Err() != nil at that point
    saveFails: (string, int) -> bool,              // the insert of (brand, page) fails
    day: Day,                                      // the `parsed` default of the inserts
    host: Host)

  /** The site eventually answers every ad url with something other than
      403. The crawl needs this to end: the source retries without a cap. */
  ghost predicate Relents(env: Env) {
    forall url :: !Forbidden(env.car(url, env.relent(url)))
  }

  predicate Forbidden<B>(f: Fetch<B>) {
    f.Response? && f.code == StatusForbiddenCode
  }

  // ---------------------------------------------------------------------
  // The retry loop around ParseCarPage
  // ---------------------------------------------------------------------

  lemma WaitsInRangeConcat(a: seq<int>, b: seq<int>)
    requires WaitsInRange(a) && WaitsInRange(b)
    ensures WaitsInRange(a + b)
  {
    assert forall i :: 0 <= i < |b| ==> (a + b)[|a| + i] == b[i];
  }

  /** The waits slept and the final answer of the retry loop. */
  datatype Retry = Retry(sleeps: seq<int>, result: Result<Car>)

  /** The retry loop from attempt k on: a 403 sleeps and asks again; any
      other answer ends the loop. */
  function Resolve(env: Env, url: string, k: nat): Retry
    requires Relents(env) && k <= env.relent(url)
    decreases env.relent(url) - k
  {
    var a := CarPage(url, env.car(url, k), env.host);
    if a == Err(StatusForbidden) then
      var rest := Resolve(env, url, k + 1);
      Retry([BaseDelay + env.jitter(url, k)] + rest.sleeps, rest.result)
    else Retry([], a)
  }

  /** The loop ends on the first attempt that is not answered 403, with that
      attempt's outcome, after one wait per 403 answer; every wait lasts
      from 1000 ms up to but not including 3500 ms. */
  lemma {:induction false} ResolveSettles(env: Env, url: string, k: nat)
    requires Relents(env) && k <= env.relent(url)
    ensures Resolve(env, url, k).result != Err(StatusForbidden)
    ensures Resolve(env, url, k).result == CarPage(url, env.car(url, k + |Resolve(env, url, k).sleeps|), env.host)
    ensures forall j :: k <= j < k + |Resolve(env, url, k).sleeps| ==> Forbidden(env.car(url, j))
    ensures WaitsInRange(Resolve(env, url, k).sleeps)
    decreases env.relent(url) - k
  {
    var a := CarPage(url, env.car(url, k), env.host);
    if a == Err(StatusForbidden) {
      ResolveSettles(env, url, k + 1);
      var rest := Resolve(env, url, k + 1);
      var r := Resolve(env, url, k);
      assert r.sleeps == [BaseDelay + env.jitter(url, k)] + rest.sleeps;
      forall i | 0 <= i < |r.sleeps|
        ensures BaseDelay <= r.sleeps[i] < BaseDelay + JitterBound
      {
        if i > 0 {
          assert r.sleeps[i] == rest.sleeps[i - 1];
        }
      }
    }
  }

  /** Cancellation is not consulted inside the retry loop: the loop runs the
      same whatever the context does. */
  lemma {:induction false} ResolveIgnoresCancel(env: Env, url: string, k: nat, cancelled: Checkpoint -> bool)
    requires Relents(env) && k <= env.relent(url)
    ensures Relents(env.(cancelled := cancelled))
    ensures Resolve(env.(cancelled := cancelled), url, k) == Resolve(env, url, k)
    decreases env.relent(url) - k
  {
    var env' := env.(cancelled := cancelled);
    assert forall u :: env'.car(u, env'.relent(u)) == env.car(u, env.relent(u));
    if CarPage(url, env.car(url, k), env.host) == Err(StatusForbidden) {
      ResolveIgnoresCancel(env, url, k + 1, cancelled);
    }
  }

  // ---------------------------------------------------------------------
  // One listing page: the link loop
  // ---------------------------------------------------------------------

  /** What the link loop has gathered: the page's cars in link order, the
      waits slept, and whether the context was found cancelled. */
  datatype PageRun = PageRun(batch: seq<Car>, sleeps: seq<int>, cancelled: bool)

  /** The link loop over the first n links of a page. */
  function RunPage(env: Env, site: string, brand: string, page: int, links: seq<string>, n: nat): PageRun
    requires Relents(env) && n <= |links|
  {
    if n == 0 then PageRun([], [], false)
    else
      var p := RunPage(env, site, brand, page, links, n - 1);
      if p.cancelled then p
      else if env.cancelled(BeforeAd(brand, page, n - 1)) then p.(cancelled := true)
      else
        var a := Resolve(env, site + links[n - 1], 0);
        PageRun(p.batch + (if a.result.Ok? then [a.result.value] else []), p.sleeps + a.sleeps, false)
  }

  /** Once cancelled, the rest of the links are not visited. */
  lemma {:induction false} RunPageStops(env: Env, site: string, brand: string, page: int, links: seq<string>, n: nat, m: nat)
    requires Relents(env) && n <= m <= |links|
    requires RunPage(env, site, brand, page, links, n).cancelled
    ensures RunPage(env, site, brand, page, links, m) == RunPage(env, site, brand, page, links, n)
    decreases m
  {
    if m > n {
      RunPageStops(env, site, brand, page, links, n, m - 1);
    }
  }

  /** A page yields at most one car per link, each car carries the url of
      the link it was fetched from, and every wait is within bounds. */
  lemma {:induction false} RunPageBatch(env: Env, site: string, brand: string, page: int, links: seq<string>, n: nat)
    requires Relents(env) && n <= |links|
    ensures |RunPage(env, site, brand, page, links, n).batch| <= n
    ensures forall c :: c in RunPage(env, site, brand, page, links, n).batch ==> exists j :: 0 <= j < n && c.link == site + links[j]
    ensures WaitsInRange(RunPage(env, site, brand, page, links, n).sleeps)
  {
    if n > 0 {
      RunPageBatch(env, site, brand, page, links, n - 1);
      var p := RunPage(env, site, brand, page, links, n - 1);
      if !p.cancelled && !env.cancelled(BeforeAd(brand, page, n - 1)) {
        var url := site + links[n - 1];
        var a := Resolve(env, url, 0);
        ResolveSettles(env, url, 0);
        var q := RunPage(env, site, brand, page, links, n);
        forall c | c in q.batch
          ensures exists j :: 0 <= j < n && c.link == site + links[j]
        {
          if c !in p.batch {
            assert c == a.result.value;
            assert c.link == site + links[n - 1];
          }
        }
        forall i | 0 <= i < |q.sleeps|
          ensures BaseDelay <= q.sleeps[i] < BaseDelay + JitterBound
        {
          if i >= |p.sleeps| {
            assert q.sleeps[i] == a.sleeps[i - |p.sleeps|];
          }
        }
      }
    }
  }

  /** With the context never cancelled, the batch is exactly the ads that
      did not fail, in link order. */
  function Successes(env: Env, site: string, links: seq<string>, n: nat): seq<Car>
    requires Relents(env) && n <= |links|
  {
    if n == 0 then []
    else
      var a := Resolve(env, site + links[n - 1], 0);
      Successes(env, site, links, n - 1) + (if a.result.Ok? then [a.result.value] else [])
  }

  lemma {:induction false} RunPageUncancelled(env: Env, site: string, brand: string, page: int, links: seq<string>, n: nat)
    requires Relents(env) && n <= |links|
    requires forall j :: 0 <= j < n ==> !env.cancelled(BeforeAd(brand, page, j))
    ensures !RunPage(env, site, brand, page, links, n).cancelled
    ensures RunPage(env, site, brand, page, links, n).batch == Successes(env, site, links, n)
  {
    if n > 0 {
      RunPageUncancelled(env, site, brand, page, links, n - 1);
    }
  }

  // ---------------------------------------------------------------------
  // The page loop of ParseAdsByBrand
  // ---------------------------------------------------------------------

  /** The state of one brand's crawl: the error that ended it, if any, the
      cars table, the pages whose list was fetched, the batch saved for each
      page, and the waits slept. */
  datatype Crawl = Crawl(err: Option<Error>, cars: CarTable, visited: seq<int>, saved: seq<seq<Car>>, sleeps: seq<int>)

  /** One turn of the page loop, for page i. */
  function PageStep(env: Env, site: string, brand: string, brandPage: string, s: Crawl, i: int): Crawl
    requires Relents(env)
  {
    if env.cancelled(BeforePage(brand, i)) then s.(err := Some(Cancelled))
    else
      match AdListOf(env.list(brandPage, i))
      case Err(e) => s.(err := Some(e), visited := s.visited + [i])
      case Ok(links) =>
        var run := RunPage(env, site, brand, i, links, |links|);
        var s' := s.(visited := s.visited + [i], sleeps := s.sleeps + run.sleeps);
        if run.cancelled then s'.(err := Some(Cancelled))
        else if env.saveFails(brand, i) then s'.(err := Some(Storage))
        else s'.(cars := InsertAll(s.cars, run.batch, env.day), saved := s.saved + [run.batch])
  }

  /** The page loop over pages 1..n; the first error ends it. */
  function CrawlPages(env: Env, site: string, brand: string, brandPage: string, cars: CarTable, n: nat): Crawl
    requires Relents(env)
  {
    if n == 0 then Crawl(None, cars, [], [], [])
    else
      var s := CrawlPages(env, site, brand, brandPage, cars, n - 1);
      if s.err.Some? then s else PageStep(env, site, brand, brandPage, s, n)
  }

  /** ParseAdsByBrand as a whole, from the brand map and the cars table. */
  function CrawlBrand(env: Env, site: string, brands: map<string, string>, brand: string, cars: CarTable): Crawl
    requires Relents(env)
  {
    if brand !in brands then Crawl(Some(BrandNotFound(brand)), cars, [], [], [])
    else
      match env.joinPath(site, brands[brand])
      case None => Crawl(Some(BadUrl), cars, [], [], [])
      case Some(brandPage) =>
        match TotalPages(env.pager(brandPage))
        case Err(e) => Crawl(Some(e), cars, [], [], [])
        case Ok(pages) => CrawlPages(env, site, brand, brandPage, cars, if pages <= 0 then 0 else pages)
  }

  /** The batches saved so far, applied in order to the table. */
  function SaveAll(t: CarTable, batches: seq<seq<Car>>, day: Day): CarTable {
    if batches == [] then t
    else InsertAll(SaveAll(t, batches[..|batches| - 1], day), batches[|batches| - 1], day)
  }

  /** Once an error has ended the loop, later pages change nothing. */
  lemma {:induction false} CrawlPagesStops(env: Env, site: string, brand: string, brandPage: string, cars: CarTable, n: nat, m: nat)
    requires Relents(env) && n <= m
    requires CrawlPages(env, site, brand, brandPage, cars, n).err.Some?
    ensures CrawlPages(env, site, brand, brandPage, cars, m) == CrawlPages(env, site, brand, brandPage, cars, n)
    decreases m
  {
    if m > n {
      CrawlPagesStops(env, site, brand, brandPage, cars, n, m - 1);
    }
  }

  /** Pages are visited once each, in increasing order from 1; every visited
      page but possibly the last one is saved, and a run without error
      visits and saves all n pages. */
  lemma {:induction false} CrawlPagesVisits(env: Env, site: string, brand: string, brandPage: string, cars: CarTable, n: nat)
    requires Relents(env)
    ensures |CrawlPages(env, site, brand, brandPage, cars, n).visited| <= n
    ensures PagesFromOne(CrawlPages(env, site, brand, brandPage, cars, n).visited)
    ensures |CrawlPages(env, site, brand, brandPage, cars, n).saved| == |CrawlPages(env, site, brand, brandPage, cars, n).visited| || (CrawlPages(env, site, brand, brandPage, cars, n).err.Some? && |CrawlPages(env, site, brand, brandPage, cars, n).saved| + 1 == |CrawlPages(env, site, brand, brandPage, cars, n).visited|)
    ensures CrawlPages(env, site, brand, brandPage, cars, n).err.None? ==> |CrawlPages(env, site, brand, brandPage, cars, n).visited| == n
  {
    if n > 0 {
      CrawlPagesVisits(env, site, brand, brandPage, cars, n - 1);
    }
  }

  /** `t` saved nothing more than `s`. */
  predicate Unsaved(s: Crawl, t: Crawl) {
    t.saved == s.saved && t.cars == s.cars
  }

  /** `t` saved one batch more than `s`, and inserted it. */
  predicate SavedOne(s: Crawl, t: Crawl, day: Day) {
    |t.saved| == |s.saved| + 1 && t.saved[..|s.saved|] == s.saved
    && t.cars == InsertAll(s.cars, t.saved[|s.saved|], day)
  }

  /** The pages visited are 1, 2, 3, ... in this order. */
  predicate PagesFromOne(visited: seq<int>) {
    forall k :: 0 <= k < |visited| ==> visited[k] == k + 1
  }

  /** One page either saves nothing or appends its batch to the saved ones
      and inserts it; the waits it adds are within bounds. */
  lemma PageStepEffect(env: Env, site: string, brand: string, brandPage: string, s: Crawl, i: int)
    requires Relents(env)
    ensures Unsaved(s, PageStep(env, site, brand, brandPage, s, i)) || SavedOne(s, PageStep(env, site, brand, brandPage, s, i), env.day)
    ensures |s.sleeps| <= |PageStep(env, site, brand, brandPage, s, i).sleeps|
    ensures PageStep(env, site, brand, brandPage, s, i).sleeps[..|s.sleeps|] == s.sleeps
    ensures WaitsInRange(PageStep(env, site, brand, brandPage, s, i).sleeps[|s.sleeps|..])
  {
    var t := PageStep(env, site, brand, brandPage, s, i);
    if !env.cancelled(BeforePage(brand, i)) && AdListOf(env.list(brandPage, i)).Ok? {
      var links := AdListOf(env.list(brandPage, i)).value;
      var run := RunPage(env, site, brand, i, links, |links|);
      RunPageBatch(env, site, brand, i, links, |links|);
      assert t.sleeps == s.sleeps + run.sleeps;
      assert t.sleeps[|s.sleeps|..] == run.sleeps;
    }
  }

  /** The table is the old one with the saved batches applied in page order:
      what a page saved is never rolled back by a later error. */
  lemma {:induction false} CrawlPagesTable(env: Env, site: string, brand: string, brandPage: string, cars: CarTable, n: nat)
    requires Relents(env)
    ensures CrawlPages(env, site, brand, brandPage, cars, n).cars == SaveAll(cars, CrawlPages(env, site, brand, brandPage, cars, n).saved, env.day)
  {
    if n > 0 {
      CrawlPagesTable(env, site, brand, brandPage, cars, n - 1);
      var s := CrawlPages(env, site, brand, brandPage, cars, n - 1);
      if s.err.None? {
        PageStepEffect(env, site, brand, brandPage, s, n);
      }
    }
  }

  /** Every wait of a brand's crawl lasts at least 1000 ms and less than
      3500 ms. */
  lemma {:induction false} CrawlPagesSleeps(env: Env, site: string, brand: string, brandPage: string, cars: CarTable, n: nat)
    requires Relents(env)
    ensures WaitsInRange(CrawlPages(env, site, brand, brandPage, cars, n).sleeps)
  {
    if n > 0 {
      CrawlPagesSleeps(env, site, brand, brandPage, cars, n - 1);
      var s := CrawlPages(env, site, brand, brandPage, cars, n - 1);
      if s.err.None? {
        PageStepEffect(env, site, brand, brandPage, s, n);
        var c := CrawlPages(env, site, brand, brandPage, cars, n);
        assert c.sleeps == s.sleeps + c.sleeps[|s.sleeps|..];
        WaitsInRangeConcat(s.sleeps, c.sleeps[|s.sleeps|..]);
      }
    }
  }

  /** SaveAll never changes a row that was in the table before. */
  lemma {:induction false} SaveAllKeepsRows(t: CarTable, batches: seq<seq<Car>>, day: Day)
    ensures forall k :: k in t ==> k in SaveAll(t, batches, day) && SaveAll(t, batches, day)[k] == t[k]
  {
    if batches != [] {
      var before := SaveAll(t, batches[..|batches| - 1], day);
      SaveAllKeepsRows(t, batches[..|batches| - 1], day);
      InsertAllKeepsRows(before, batches[|batches| - 1], day);
    }
  }

  /** A brand missing from the map is reported before anything is fetched
      or saved. */
  lemma BrandNotFoundFirst(env: Env, site: string, brands: map<string, string>, brand: string, cars: CarTable)
    requires Relents(env) && brand !in brands
    ensures CrawlBrand(env, site, brands, brand, cars) == Crawl(Some(BrandNotFound(brand)), cars, [], [], [])
  {
  }

  /** Whatever happens to a brand's crawl, the rows already in the table
      are still there, unchanged, and the pages visited are 1, 2, ... up to
      at most the page count. */
  lemma CrawlBrandFacts(env: Env, site: string, brands: map<string, string>, brand: string, cars: CarTable)
    requires Relents(env)
    ensures (forall k :: k in cars ==> k in CrawlBrand(env, site, brands, brand, cars).cars && CrawlBrand(env, site, brands, brand, cars).cars[k] == cars[k])
    ensures PagesFromOne(CrawlBrand(env, site, brands, brand, cars).visited)
    ensures WaitsInRange(CrawlBrand(env, site, brands, brand, cars).sleeps)
  {
    var c := CrawlBrand(env, site, brands, brand, cars);
    if brand in brands && env.joinPath(site, brands[brand]).Some? {
      var brandPage := env.joinPath(site, brands[brand]).value;
      var pages := TotalPages(env.pager(brandPage));
      if pages.Ok? {
        var n: nat := if pages.value <= 0 then 0 else pages.value;
        CrawlPagesVisits(env, site, brand, brandPage, cars, n);
        CrawlPagesTable(env, site, brand, brandPage, cars, n);
        CrawlPagesSleeps(env, site, brand, brandPage, cars, n);
        SaveAllKeepsRows(cars, c.saved, env.day);
      }
    }
  }

  /** A page count of zero or less, as an empty or negative pager gives,
      visits no page and saves nothing. */
  lemma NoPagesNoVisits(env: Env, site: string, brands: map<string, string>, brand: string, cars: CarTable)
    requires Relents(env) && brand in brands && env.joinPath(site, brands[brand]).Some?
    requires var p := TotalPages(env.pager(env.joinPath(site, brands[brand]).value)); p.Ok? && p.value <= 0
    ensures CrawlBrand(env, site, brands, brand, cars) == Crawl(None, cars, [], [], [])
  {
  }

  // ---------------------------------------------------------------------
  // CarParsingService
  // ---------------------------------------------------------------------

  class CarParsingService {
    const targetSite: string
    var brands: map<string, string>
    const repo: Repository

    constructor (targetSite: string, repo: Repository)
      ensures this.targetSite == targetSite && this.repo == repo && brands == map[]
    {
      this.targetSite := targetSite;
      this.repo := repo;
      brands := map[];
    }

    /** LoadCarBrands replaces the brand map with what the index page gives;
        a failure leaves no brands at all. */
    method LoadCarBrands(index: Fetch<Doc<seq<Anchor>>>) returns (err: Option<Error>)
      modifies this
      ensures brands == (if CarBrandsOf(index).Ok? then CarBrandsOf(index).value else map[])
      ensures err == (if CarBrandsOf(index).Ok? then None else Some(CarBrandsOf(index).error))
    {
      var r := ParseCarBrands(index);
      if r.Ok? {
        brands := r.value;
        return None;
      }
      brands := map[];
      return Some(r.error);
    }

    function CarBrands(): (r: map<string, string>)
      reads this
      ensures r.Keys == brands.Keys
    {
      brands
    }

    /** The retry loop: ask for the ad until the answer is not 403, sleeping
        between attempts; the outcome is the first non-403 answer. */
    method FetchCar(env: Env, url: string) returns (r: Result<Car>, ghost sleeps: seq<int>)
      requires Relents(env)
      ensures Resolve(env, url, 0) == Retry(sleeps, r)
      ensures r != Err(StatusForbidden)
    {
      var attempt: nat := 0;
      sleeps := [];
      while true
        invariant attempt <= env.relent(url)
        invariant Resolve(env, url, 0) == Retry(sleeps + Resolve(env, url, attempt).sleeps, Resolve(env, url, attempt).result)
        decreases env.relent(url) - attempt
      {
        var car := ParseCarPage(url, env.car(url, attempt), env.host);
        if car.Err? {
          if car.error == StatusForbidden {
            sleeps := sleeps + [BaseDelay + env.jitter(url, attempt)];
            attempt := attempt + 1;
            continue;
          }
          break;
        }
        return car, sleeps;
      }
      r := Resolve(env, url, attempt).result;
      ResolveSettles(env, url, 0);
    }

    /** The link loop of one page: fetch every ad in order, keeping the
        cars that did not fail; stop as soon as the context is cancelled. */
    method ParsePage(env: Env, brand: string, page: int, links: seq<string>)
      returns (batch: seq<Car>, ghost sleeps: seq<int>, cancelled: bool)
      requires Relents(env)
      ensures RunPage(env, targetSite, brand, page, links, |links|) == PageRun(batch, sleeps, cancelled)
      ensures |batch| <= |links|
    {
      batch, sleeps := [], [];
      for j := 0 to |links|
        invariant RunPage(env, targetSite, brand, page, links, j) == PageRun(batch, sleeps, false)
      {
        if env.cancelled(BeforeAd(brand, page, j)) {
          RunPageStops(env, targetSite, brand, page, links, j + 1, |links|);
          RunPageBatch(env, targetSite, brand, page, links, |links|);
          return batch, sleeps, true;
        }
        var car, wait := FetchCar(env, targetSite + links[j]);
        if car.Ok? {
          batch := batch + [car.value];
        }
        sleeps := sleeps + wait;
      }
      RunPageBatch(env, targetSite, brand, page, links, |links|);
      return batch, sleeps, false;
    }

    /** ParseAdsByBrand: the brand's pages in order, one insert per page. */
    method ParseAdsByBrand(env: Env, brand: string)
      returns (err: Option<Error>, ghost visited: seq<int>, ghost saved: seq<seq<Car>>, ghost sleeps: seq<int>)
      requires Relents(env)
      modifies repo
      ensures CrawlBrand(env, targetSite, brands, brand, old(repo.cars)) == Crawl(err, repo.cars, visited, saved, sleeps)
      ensures repo.users == old(repo.users)
    {
      visited, saved, sleeps := [], [], [];
      if brand !in brands {
        return Some(BrandNotFound(brand)), visited, saved, sleeps;
      }
      var brandPage := env.joinPath(targetSite, brands[brand]);
      if brandPage.None? {
        return Some(BadUrl), visited, saved, sleeps;
      }
      var pages := TotalPages(env.pager(brandPage.value));
      if pages.Err? {
        return Some(pages.error), visited, saved, sleeps;
      }
      ghost var start := repo.cars;
      ghost var n: nat := if pages.value <= 0 then 0 else pages.value;
      var i := 1;
      while i <= pages.value
        invariant 1 <= i && (i - 1 <= n)
        invariant i <= pages.value ==> i - 1 < n
        invariant pages.value < i ==> i - 1 == n
        invariant CrawlPages(env, targetSite, brand, brandPage.value, start, i - 1) == Crawl(None, repo.cars, visited, saved, sleeps)
        invariant repo.users == old(repo.users)
        decreases pages.value - i
      {
        if env.cancelled(BeforePage(brand, i)) {
          CrawlPagesStops(env, targetSite, brand, brandPage.value, start, i, n);
          return Some(Cancelled), visited, saved, sleeps;
        }
        var adLinks := ParseAdList(env.list(brandPage.value, i));
        visited := visited + [i];
        if adLinks.Err? {
          CrawlPagesStops(env, targetSite, brand, brandPage.value, start, i, n);
          return Some(adLinks.error), visited, saved, sleeps;
        }
        var pageAds, wait, cancelled := ParsePage(env, brand, i, adLinks.value);
        sleeps := sleeps + wait;
        if cancelled {
          CrawlPagesStops(env, targetSite, brand, brandPage.value, start, i, n);
          return Some(Cancelled), visited, saved, sleeps;
        }
        var saveErr := repo.SaveCars(pageAds, env.day, env.saveFails(brand, i));
        if saveErr.Some? {
          CrawlPagesStops(env, targetSite, brand, brandPage.value, start, i, n);
          return saveErr, visited, saved, sleeps;
        }
        saved := saved + [pageAds];
        i := i + 1;
      }
      return None, visited, saved, sleeps;
    }
  }
}
