/** The twelve named API methods, each a binding of a path and query
    parameters handed to the generic fetch, and a parser that recovers the
    method and its argument from the cache key it produces. */
module Endpoints {
  import opened Base
  import opened PyRepr
  import opened CacheKeys

  datatype Endpoint =
    | Cosmetics(search: string)
    | News
    | Stats(username: string)
    | Shop
    | MapInfo
    | Season
    | Languages
    | Upcoming
    | Creative
    | Paks
    | Banners
    | CreatorCode(code: string)

  datatype Request = Request(path: string, params: Params)

  const CosmeticsPath := "/v2/cosmetics/br/search/all"
  const NewsPath := "/v2/news/br"
  const StatsPath := "/v2/stats/br/v2"
  const ShopPath := "/v2/shop/br"
  const MapPath := "/v1/map"
  const SeasonPath := "/v2/seasons/current"
  const LanguagesPath := "/v1/languages"
  const UpcomingPath := "/v2/cosmetics/br/new"
  const CreativePath := "/v2/creative/islands"
  const PaksPath := "/v2/paks"
  const BannersPath := "/v1/banners"
  const CreatorCodePrefix := "/v2/creatorcode/"

  /** The one-entry dict `{"name": value}`. */
  function NameQuery(value: string): Params {
    Query([("name", value)])
  }

  /** The (path, params) pair each named method passes to `get`. */
  function RequestFor(e: Endpoint): (r: Request)
    ensures e.Cosmetics? ==> r.path == CosmeticsPath && (r.params.NoParams? <==> e.search == "")
    ensures e.Cosmetics? && e.search != "" ==> r.params == NameQuery(e.search)
    ensures e.Stats? ==> r.path == StatsPath && r.params == NameQuery(e.username)
    ensures e.CreatorCode? ==> r.path == CreatorCodePrefix + e.code && r.params.NoParams?
    ensures !e.Cosmetics? && !e.Stats? ==> r.params.NoParams?
    // the fixed path of each method that takes no argument
    ensures && (e.News? ==> r.path == NewsPath)
            && (e.Shop? ==> r.path == ShopPath)
            && (e.MapInfo? ==> r.path == MapPath)
            && (e.Season? ==> r.path == SeasonPath)
            && (e.Languages? ==> r.path == LanguagesPath)
            && (e.Upcoming? ==> r.path == UpcomingPath)
            && (e.Creative? ==> r.path == CreativePath)
            && (e.Paks? ==> r.path == PaksPath)
            && (e.Banners? ==> r.path == BannersPath)
  {
    match e
    case Cosmetics(search) => Request(CosmeticsPath, if search != "" then NameQuery(search) else NoParams)
    case News => Request(NewsPath, NoParams)
    case Stats(username) => Request(StatsPath, NameQuery(username))
    case Shop => Request(ShopPath, NoParams)
    case MapInfo => Request(MapPath, NoParams)
    case Season => Request(SeasonPath, NoParams)
    case Languages => Request(LanguagesPath, NoParams)
    case Upcoming => Request(UpcomingPath, NoParams)
    case Creative => Request(CreativePath, NoParams)
    case Paks => Request(PaksPath, NoParams)
    case Banners => Request(BannersPath, NoParams)
    case CreatorCode(code) => Request(CreatorCodePrefix + code, NoParams)
  }

  function EndpointKey(e: Endpoint): string {
    var r := RequestFor(e);
    CacheKey(r.path, r.params)
  }

  /** The text between a search path and the quoted name in a key. */
  function NameOpen(path: string): string {
    path + " {'name': "
  }

  /** Recovers the named method and its argument from a cache key, when the
      key is one that some named method produces. */
  function ParseKey(key: string): Option<Endpoint> {
    if StartsWith(key, CreatorCodePrefix) && EndsWith(key, " None")
       && |key| >= |CreatorCodePrefix| + 5
    then Some(CreatorCode(key[|CreatorCodePrefix|..|key| - 5]))
    else if StartsWith(key, NameOpen(CosmeticsPath)) && EndsWith(key, "}")
            && |key| > |NameOpen(CosmeticsPath)|
    then
      match Unrepr(key[|NameOpen(CosmeticsPath)|..|key| - 1])
      case Some(s) => if s != "" then Some(Cosmetics(s)) else None
      case None => None
    else if StartsWith(key, NameOpen(StatsPath)) && EndsWith(key, "}")
            && |key| > |NameOpen(StatsPath)|
    then
      match Unrepr(key[|NameOpen(StatsPath)|..|key| - 1])
      case Some(u) => Some(Stats(u))
      case None => None
    else FixedEndpoint(key)
  }

  /** The methods whose key is a constant. */
  function FixedEndpoint(key: string): Option<Endpoint> {
    if key == CosmeticsPath + " None" then Some(Cosmetics(""))
    else if key == NewsPath + " None" then Some(News)
    else if key == ShopPath + " None" then Some(Shop)
    else if key == MapPath + " None" then Some(MapInfo)
    else if key == SeasonPath + " None" then Some(Season)
    else if key == LanguagesPath + " None" then Some(Languages)
    else if key == UpcomingPath + " None" then Some(Upcoming)
    else if key == CreativePath + " None" then Some(Creative)
    else if key == PaksPath + " None" then Some(Paks)
    else if key == BannersPath + " None" then Some(Banners)
    else None
  }

  lemma NameReprLiteral()
    ensures ReprStr("name") == "'name'"
  {
    assert QuoteFor("name") == '\'';
    assert Escape("name", '\'') == "name" by {
      assert Escape("e", '\'') == "e";
      assert Escape("me", '\'') == "me";
      assert Escape("ame", '\'') == "ame";
    }
  }

  lemma NameQueryKey(path: string, value: string)
    ensures CacheKey(path, NameQuery(value)) == NameOpen(path) + ReprStr(value) + "}"
  {
    NameItems(value);
    QueryKey(path, [("name", value)]);
    Splice(path, ReprItems([("name", value)]), ReprStr(value));
  }

  lemma Splice(path: string, items: string, rv: string)
    requires items == "'name': " + rv
    ensures path + " {" + items + "}" == NameOpen(path) + rv + "}"
  {
  }

  lemma NameItems(value: string)
    ensures ReprItems([("name", value)]) == "'name': " + ReprStr(value)
  {
    var pairs := [("name", value)];
    assert |pairs| == 1 && pairs[0].0 == "name" && pairs[0].1 == value;
    assert ReprItems(pairs) == ReprStr("name") + ": " + ReprStr(value);
    NameReprLiteral();
  }

  lemma QueryKey(path: string, pairs: seq<(string, string)>)
    ensures CacheKey(path, Query(pairs)) == path + " {" + ReprItems(pairs) + "}"
  {
  }

  lemma NoneKey(path: string)
    ensures CacheKey(path, NoParams) == path + " None"
  {
  }

  /** A key ending in `e` (of ` None`) is read as a constant key unless it
      starts like a creator-code path. */
  lemma ConstantKeyParses(key: string, e: Endpoint, k: nat)
    requires |key| > 0 && key[|key| - 1] == 'e'
    requires k < |key| && k < |CreatorCodePrefix| && key[k] != CreatorCodePrefix[k]
    requires FixedEndpoint(key) == Some(e)
    ensures ParseKey(key) == Some(e)
  {
    NotStartsWithAt(key, CreatorCodePrefix, k);
  }

  lemma FixedKeyParses(e: Endpoint)
    requires e.Cosmetics? ==> e.search == ""
    requires !e.Stats? && !e.CreatorCode?
    ensures ParseKey(EndpointKey(e)) == Some(e)
  {
    NoneKey(RequestFor(e).path);
    if e.Cosmetics? || e.News? || e.MapInfo? {
      FixedKeyParsesFirst(e);
    } else if e.Season? || e.Languages? || e.Upcoming? || e.Paks? {
      FixedKeyParsesMiddle(e);
    } else {
      FixedKeyParsesLast(e);
    }
  }

  lemma FixedKeyParsesFirst(e: Endpoint)
    requires e == Cosmetics("") || e.News? || e.MapInfo?
    ensures ParseKey(RequestFor(e).path + " None") == Some(e)
  {
    match e
    case Cosmetics(_) =>
      ConstantKeyParses(CosmeticsPath + " None", e, 5);
    case News =>
      ConstantKeyParses(NewsPath + " None", e, 4);
    case MapInfo =>
      ConstantKeyParses(MapPath + " None", e, 2);
  }

  lemma FixedKeyParsesMiddle(e: Endpoint)
    requires e.Season? || e.Languages? || e.Upcoming? || e.Paks?
    ensures ParseKey(RequestFor(e).path + " None") == Some(e)
  {
    match e
    case Season =>
      ConstantKeyParses(SeasonPath + " None", e, 4);
    case Languages =>
      ConstantKeyParses(LanguagesPath + " None", e, 2);
    case Upcoming =>
      ConstantKeyParses(UpcomingPath + " None", e, 5);
    case Paks =>
      ConstantKeyParses(PaksPath + " None", e, 4);
  }

  /** The keys of equal length that need a differing position named. */
  lemma FixedKeyParsesLast(e: Endpoint)
    requires e.Shop? || e.Creative? || e.Banners?
    ensures ParseKey(RequestFor(e).path + " None") == Some(e)
  {
    match e
    case Shop =>
      assert (ShopPath + " None")[4] != (NewsPath + " None")[4];
      ConstantKeyParses(ShopPath + " None", e, 4);
    case Creative =>
      assert (CreativePath + " None")[5] != (UpcomingPath + " None")[5];
      ConstantKeyParses(CreativePath + " None", e, 9);
    case Banners =>
      assert (BannersPath + " None")[2] != (NewsPath + " None")[2];
      assert (BannersPath + " None")[2] != (ShopPath + " None")[2];
      ConstantKeyParses(BannersPath + " None", e, 2);
  }

  lemma CreatorCodeKeyParses(code: string)
    ensures ParseKey(EndpointKey(CreatorCode(code))) == Some(CreatorCode(code))
  {
    var key := EndpointKey(CreatorCode(code));
    NoneKey(CreatorCodePrefix + code);
    assert key == CreatorCodePrefix + (code + " None");
    StartsWithConcat(CreatorCodePrefix, code + " None");
    EndsWithConcat(CreatorCodePrefix + code, " None");
    assert key[|CreatorCodePrefix|..|key| - 5] == code;
  }

  /** A key built from a search path, a quoted name and `}` is read back
      through `Unrepr`. */
  lemma NameKeySlices(path: string, rv: string)
    ensures StartsWith(NameOpen(path) + rv + "}", NameOpen(path))
    ensures EndsWith(NameOpen(path) + rv + "}", "}")
    ensures var key := NameOpen(path) + rv + "}";
      key[|NameOpen(path)|..|key| - 1] == rv
  {
    var key := NameOpen(path) + rv + "}";
    assert key == NameOpen(path) + (rv + "}");
    StartsWithConcat(NameOpen(path), rv + "}");
    EndsWithConcat(NameOpen(path) + rv, "}");
  }

  /** The key of `get_cosmetics(search)` reads back as that call: the empty
      search through its constant key, any other with the search recovered. */
  lemma CosmeticsKeyParses(search: string)
    ensures ParseKey(EndpointKey(Cosmetics(search))) == Some(Cosmetics(search))
  {
    if search == "" {
      FixedKeyParses(Cosmetics(search));
    } else {
      NameQueryKey(CosmeticsPath, search);
      ReprRoundTrip(search);
      SearchKeyParses(ReprStr(search), search);
    }
  }

  lemma SearchKeyParses(rv: string, search: string)
    requires Unrepr(rv) == Some(search) && search != ""
    ensures ParseKey(NameOpen(CosmeticsPath) + rv + "}") == Some(Cosmetics(search))
  {
    var key := NameOpen(CosmeticsPath) + rv + "}";
    NameKeySlices(CosmeticsPath, rv);
    assert key[5] == 'o';
    NotStartsWithAt(key, CreatorCodePrefix, 5);
  }

  lemma StatsKeyParses(username: string)
    ensures ParseKey(EndpointKey(Stats(username))) == Some(Stats(username))
  {
    assert RequestFor(Stats(username)) == Request(StatsPath, NameQuery(username));
    NameQueryKey(StatsPath, username);
    ReprRoundTrip(username);
    UserKeyParses(ReprStr(username), username);
  }

  lemma UserKeyParses(rv: string, username: string)
    requires Unrepr(rv) == Some(username)
    ensures ParseKey(NameOpen(StatsPath) + rv + "}") == Some(Stats(username))
  {
    var key := NameOpen(StatsPath) + rv + "}";
    NameKeySlices(StatsPath, rv);
    assert key[4] == 's';
    NotStartsWithAt(key, CreatorCodePrefix, 4);
    NotStartsWithAt(key, NameOpen(CosmeticsPath), 4);
  }

  /** Every named method's cache key can be read back as that method and
      its argument. */
  lemma ParseKeyInverts(e: Endpoint)
    ensures ParseKey(EndpointKey(e)) == Some(e)
  {
    match e
    case Cosmetics(search) => CosmeticsKeyParses(search);
    case Stats(username) => StatsKeyParses(username);
    case CreatorCode(code) => CreatorCodeKeyParses(code);
    case _ => FixedKeyParses(e);
  }

  /** Two calls of the named methods share a cache entry only when they are
      the same method with the same argument: the empty cosmetics search
      never meets a non-empty one, and no creator code collides with another
      endpoint. */
  lemma EndpointKeyInjective(e1: Endpoint, e2: Endpoint)
    ensures EndpointKey(e1) == EndpointKey(e2) <==> e1 == e2
  {
    ParseKeyInverts(e1);
    ParseKeyInverts(e2);
  }
}
