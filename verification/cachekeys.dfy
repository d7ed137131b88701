/** The cache key of a request: the path, one space, and `str(params)`,
    where absent parameters print as `None` and a dict prints as its `repr`. */
module CacheKeys {
  import opened Base
  import opened PyRepr

  /** Query parameters: Python's `None`, or a dict of strings in insertion order. */
  datatype Params = NoParams | Query(pairs: seq<(string, string)>)

  function ParamsText(params: Params): string {
    match params
    case NoParams => "None"
    case Query(pairs) => ReprDict(pairs)
  }

  /** The key under which a response is cached. */
  function CacheKey(path: string, params: Params): string {
    path + " " + ParamsText(params)
  }

  /** A key starts with the path and a space, and it ends in ` None` exactly
      when no parameters were given, so an absent dict and an empty dict
      never share a key. */
  lemma CacheKeyShape(path: string, params: Params)
    ensures StartsWith(CacheKey(path, params), path + " ")
    ensures params.NoParams? <==> EndsWith(CacheKey(path, params), " None")
  {
    var t := ParamsText(params);
    var key := path + " " + t;
    StartsWithConcat(path + " ", t);
    if params.NoParams? {
      assert key == path + " None";
      EndsWithConcat(path, " None");
    } else {
      ReprDictBraces(params.pairs);
      assert key[|key| - 1] == t[|t| - 1] == '}';
    }
  }
}
