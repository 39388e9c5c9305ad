/**
 * The lookup every variant of the plugin performs on a parsed keys.json
 * array:
 *   matching = configs.find { |config| config["url"] == url }
 *   matching["key_path"] if matching && matching["key_path"]
 */
module KeyMapping {
  import opened Wrappers
  import opened RubyValues

  /** `config["url"] == url` evaluates to true. */
  predicate Hits(config: Value, url: string) {
    Index(config, "url") == Ok(Str(url))
  }

  /** `config["url"] == url` evaluates to false. */
  predicate Misses(config: Value, url: string) {
    Index(config, "url").Ok? && Index(config, "url").value != Str(url)
  }

  /**
   * Enumerable#find over configs[from..]: the index of the first entry the
   * block accepts, nil when it accepts none, or the exception the block
   * raises on the first entry it cannot index.
   */
  function FindByUrl(configs: seq<Value>, url: string, from: nat): (r: Result<Option<nat>, RubyError>)
    requires from <= |configs|
    ensures r.Ok? && r.value.Some? ==>
      from <= r.value.value < |configs| && Hits(configs[r.value.value], url) &&
      forall j | from <= j < r.value.value :: Misses(configs[j], url)
    ensures r.Ok? && r.value.None? ==> forall j | from <= j < |configs| :: Misses(configs[j], url)
    ensures r.Err? ==> exists j | from <= j < |configs| ::
      Index(configs[j], "url") == Err(r.error) && forall k | from <= k < j :: Misses(configs[k], url)
    decreases |configs| - from
  {
    if from == |configs| then Ok(None)
    else match Index(configs[from], "url")
      case Err(e) => Err(e)
      case Ok(v) => if v == Str(url) then Ok(Some(from)) else FindByUrl(configs, url, from + 1)
  }

  /**
   * The key path the lookup yields: the first matching entry's "key_path"
   * when it is truthy, nil otherwise, or the exception the search raised.
   */
  function KeyForUrl(configs: seq<Value>, url: string): (r: Result<Option<Value>, RubyError>)
    ensures r.Ok? && r.value.Some? ==> Truthy(r.value.value)
  {
    match FindByUrl(configs, url, 0)
    case Err(e) => Err(e)
    case Ok(None) => Ok(None)
    case Ok(Some(i)) =>
      match Index(configs[i], "key_path")
      case Err(e) => Err(e)
      case Ok(k) => if Truthy(k) then Ok(Some(k)) else Ok(None)
  }

  /** The shape keys.json is documented to have: an array of objects. */
  predicate WellFormed(configs: seq<Value>) {
    forall j | 0 <= j < |configs| :: configs[j].Obj?
  }

  /** An object's field, nil when it has none. */
  function Field(config: Value, name: string): Value
    requires config.Obj?
  {
    if name in config.fields then config.fields[name] else Null
  }

  /** Entry i is the first whose "url" is `url`. */
  predicate IsFirstMatch(configs: seq<Value>, url: string, i: int)
    requires WellFormed(configs)
  {
    0 <= i < |configs| && Field(configs[i], "url") == Str(url) &&
    forall j | 0 <= j < i :: Field(configs[j], "url") != Str(url)
  }

  /**
   * On a well-formed mapping the lookup never raises; it yields the
   * "key_path" of the first entry whose "url" equals `url` exactly when that
   * value is truthy, and nothing when no entry matches. A later matching
   * entry is never consulted.
   */
  lemma {:induction false} WellFormedLookup(configs: seq<Value>, url: string)
    requires WellFormed(configs)
    ensures KeyForUrl(configs, url).Ok?
    ensures (forall j | 0 <= j < |configs| :: Field(configs[j], "url") != Str(url)) ==>
      KeyForUrl(configs, url) == Ok(None)
    ensures forall i | IsFirstMatch(configs, url, i) ::
      KeyForUrl(configs, url) ==
        Ok(if Truthy(Field(configs[i], "key_path")) then Some(Field(configs[i], "key_path")) else None)
  {
    var r := FindByUrl(configs, url, 0);
    if r.Err? {
      assert false;
    }
    if r.value.Some? {
      var m := r.value.value;
      assert IsFirstMatch(configs, url, m);
      forall i | IsFirstMatch(configs, url, i) ensures i == m {
      }
    } else {
      forall i | 0 <= i < |configs| ensures Field(configs[i], "url") != Str(url) {
        assert Misses(configs[i], url);
      }
    }
  }
}
