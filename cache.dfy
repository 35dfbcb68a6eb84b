/**
 * The in-memory response cache: parameter normalisation into cache keys, and a
 * bounded store whose entries expire a fixed time after they were written.
 *
 * The store keeps its keys in an order, oldest first. A read of a live entry
 * moves its key to the end, and a write evicts from the front while the store
 * is full, so the entry evicted is always the least recently used one.
 */
module Cache {
  import opened Wrappers
  import opened Text

  const JOBSPY_CACHE_TTL: int := 15 * 60
  const RSSJOBS_CACHE_TTL: int := 10 * 60
  const MAX_CACHE_ENTRIES: int := 100

  // ---------------------------------------------------------------------------
  // Keys

  /** The value of one request parameter. */
  datatype ParamValue = PStr(s: string) | PInt(i: int) | PBool(b: bool)

  /**
   * A cache key is the prefix, ":", and a hash of the JSON text of the
   * normalised parameters. JSON with sorted keys is one text per parameter
   * map, and the hash is taken to be injective, so a key is identified with
   * the prefix and that map.
   */
  datatype CacheKey = CacheKey(prefix: string, params: map<string, ParamValue>)

  /**
   * The parameters as a dictionary built from its entries in order (a later
   * entry for a name replaces an earlier one), with the `None`-valued ones dropped.
   */
  function Normalize(params: seq<(string, Option<ParamValue>)>): map<string, ParamValue>
  {
    if params == [] then map[]
    else
      var (name, v) := params[|params| - 1];
      var rest := Normalize(params[..|params| - 1]);
      if v.Some? then rest[name := v.value] else rest - {name}
  }

  /** No name occurs twice, as in a dictionary. */
  predicate DistinctNames(params: seq<(string, Option<ParamValue>)>) {
    forall i, j :: 0 <= i < j < |params| ==> params[i].0 != params[j].0
  }

  /** With distinct names, a name is kept exactly when its entry holds a value, and it keeps that value. */
  lemma {:induction false} NormalizeLookup(params: seq<(string, Option<ParamValue>)>, i: nat)
    requires DistinctNames(params) && i < |params|
    ensures params[i].1.Some? <==> params[i].0 in Normalize(params)
    ensures params[i].1.Some? ==> Normalize(params)[params[i].0] == params[i].1.value
    decreases |params|
  {
    var last := |params| - 1;
    if i < last {
      var init := params[..last];
      assert DistinctNames(init);
      assert init[i] == params[i];
      NormalizeLookup(init, i);
      assert params[last].0 != params[i].0;
    }
  }

  /** Every name the normalised map holds comes from some entry that holds a value. */
  lemma {:induction false} NormalizeNames(params: seq<(string, Option<ParamValue>)>, name: string)
    requires name in Normalize(params)
    ensures exists i :: 0 <= i < |params| && params[i].0 == name && params[i].1.Some?
    decreases |params|
  {
    var last := |params| - 1;
    if params[last].0 != name {
      NormalizeNames(params[..last], name);
      var i :| 0 <= i < last && params[..last][i].0 == name && params[..last][i].1.Some?;
      assert params[i].0 == name && params[i].1.Some?;
    } else {
      assert params[last].1.Some?;
    }
  }

  /** `_make_key`: the key depends only on the set of entries, not on their order. */
  lemma OrderIndependent(p: seq<(string, Option<ParamValue>)>, q: seq<(string, Option<ParamValue>)>)
    requires DistinctNames(p) && DistinctNames(q)
    requires forall e :: e in p <==> e in q
    ensures Normalize(p) == Normalize(q)
  {
    forall name | name in Normalize(p) ensures name in Normalize(q) && Normalize(q)[name] == Normalize(p)[name] {
      NormalizeNames(p, name);
      var i :| 0 <= i < |p| && p[i].0 == name;
      NormalizeLookup(p, i);
      assert p[i] in q;
      var j :| 0 <= j < |q| && q[j] == p[i];
      NormalizeLookup(q, j);
    }
    forall name | name in Normalize(q) ensures name in Normalize(p) {
      NormalizeNames(q, name);
      var j :| 0 <= j < |q| && q[j].0 == name;
      NormalizeLookup(q, j);
      assert q[j] in p;
      var i :| 0 <= i < |p| && p[i] == q[j];
      NormalizeLookup(p, i);
    }
  }

  function MakeKey(prefix: string, params: seq<(string, Option<ParamValue>)>): CacheKey {
    CacheKey(prefix, Normalize(params))
  }

  /** `(v or "").strip().lower()`. */
  function NormText(v: Option<string>): (r: string)
    ensures Trimmed(r)
  {
    var s := Strip(v.GetOr(""));
    LowerKeepsTrimmed(s);
    Lower(s)
  }

  lemma LowerKeepsTrimmed(s: string)
    requires Trimmed(s)
    ensures Trimmed(Lower(s))
  {
    if s != [] {
      LowerKeepsSpaces(s[0]);
      LowerKeepsSpaces(s[|s| - 1]);
    }
  }

  /** Surrounding whitespace and letter case never change a normalised text, and an absent text is an empty one. */
  lemma NormTextInvariance(a: string, v: string, b: string)
    requires AllSpaces(a) && AllSpaces(b)
    ensures NormText(Some(a + v + b)) == NormText(Some(v))
    ensures NormText(Some(Lower(v))) == NormText(Some(v))
    ensures NormText(None) == NormText(Some(""))
  {
    StripPadding(a, v, b);
    LowerStripCommute(v);
    LowerIdempotent(Strip(v));
  }

  /** `(country or "usa").strip().lower()`: only the empty text falls back to "usa". */
  function NormCountry(country: string): string {
    NormText(Some(if country == "" then "usa" else country))
  }

  /** The parameter dictionary `jobspy_cache_key` hands to `_make_key`. */
  function JobspyParams(q: Option<string>, location: Option<string>, days: int, limit: int,
                        sites: Option<string>, preset: Option<string>, country: string, isRemote: bool)
    : seq<(string, Option<ParamValue>)>
  {
    [("q", Some(PStr(NormText(q)))),
     ("location", Some(PStr(NormText(location)))),
     ("days", Some(PInt(days))),
     ("limit", Some(PInt(limit))),
     ("sites", Some(PStr(NormText(sites)))),
     ("preset", Some(PStr(NormText(preset)))),
     ("country", Some(PStr(NormCountry(country)))),
     ("is_remote", Some(PBool(isRemote)))]
  }

  /** `jobspy_cache_key`. */
  function JobspyCacheKey(q: Option<string>, location: Option<string>, days: int, limit: int,
                          sites: Option<string>, preset: Option<string>, country: string, isRemote: bool): CacheKey
  {
    MakeKey("jobspy", JobspyParams(q, location, days, limit, sites, preset, country, isRemote))
  }

  /** `rssjobs_cache_key`. */
  function RssjobsCacheKey(keywords: string, location: string, limit: int): CacheKey
  {
    MakeKey("rssjobs", [("keywords", Some(PStr(NormText(Some(keywords))))),
                        ("location", Some(PStr(NormText(Some(location))))),
                        ("limit", Some(PInt(limit)))])
  }

  /** A further entry holding a value sets that name, whatever came before. */
  lemma NormalizeSnoc(params: seq<(string, Option<ParamValue>)>, name: string, v: ParamValue)
    ensures Normalize(params + [(name, Some(v))]) == Normalize(params)[name := v]
  {
    assert (params + [(name, Some(v))])[..|params|] == params;
  }

  /** Built up entry by entry, a list of values under distinct names normalises to the map of exactly those entries. */
  lemma {:induction false} NormalizeEight(v: seq<ParamValue>)
    requires |v| == 8
    ensures Normalize([("q", Some(v[0])), ("location", Some(v[1])), ("days", Some(v[2])), ("limit", Some(v[3])),
                       ("sites", Some(v[4])), ("preset", Some(v[5])), ("country", Some(v[6])), ("is_remote", Some(v[7]))])
         == map["q" := v[0], "location" := v[1], "days" := v[2], "limit" := v[3],
                "sites" := v[4], "preset" := v[5], "country" := v[6], "is_remote" := v[7]]
  {
    var p: seq<(string, Option<ParamValue>)> :=
      [("q", Some(v[0])), ("location", Some(v[1])), ("days", Some(v[2])), ("limit", Some(v[3])),
       ("sites", Some(v[4])), ("preset", Some(v[5])), ("country", Some(v[6])), ("is_remote", Some(v[7]))];
    assert p[..1] == p[..0] + [(p[0].0, Some(v[0]))]; NormalizeSnoc(p[..0], p[0].0, v[0]);
    assert p[..2] == p[..1] + [(p[1].0, Some(v[1]))]; NormalizeSnoc(p[..1], p[1].0, v[1]);
    assert p[..3] == p[..2] + [(p[2].0, Some(v[2]))]; NormalizeSnoc(p[..2], p[2].0, v[2]);
    assert p[..4] == p[..3] + [(p[3].0, Some(v[3]))]; NormalizeSnoc(p[..3], p[3].0, v[3]);
    assert p[..5] == p[..4] + [(p[4].0, Some(v[4]))]; NormalizeSnoc(p[..4], p[4].0, v[4]);
    assert p[..6] == p[..5] + [(p[5].0, Some(v[5]))]; NormalizeSnoc(p[..5], p[5].0, v[5]);
    assert p[..7] == p[..6] + [(p[6].0, Some(v[6]))]; NormalizeSnoc(p[..6], p[6].0, v[6]);
    assert p[..8] == p[..7] + [(p[7].0, Some(v[7]))]; NormalizeSnoc(p[..7], p[7].0, v[7]);
    assert Normalize(p[..1]) == map["q" := v[0]];
    assert Normalize(p[..2]) == map["q" := v[0], "location" := v[1]];
    assert Normalize(p[..3]) == map["q" := v[0], "location" := v[1], "days" := v[2]];
    assert Normalize(p[..4]) == map["q" := v[0], "location" := v[1], "days" := v[2], "limit" := v[3]];
    assert Normalize(p[..5]) == map["q" := v[0], "location" := v[1], "days" := v[2], "limit" := v[3], "sites" := v[4]];
    assert Normalize(p[..6]) == map["q" := v[0], "location" := v[1], "days" := v[2], "limit" := v[3], "sites" := v[4],
                                    "preset" := v[5]];
    assert Normalize(p[..7]) == map["q" := v[0], "location" := v[1], "days" := v[2], "limit" := v[3], "sites" := v[4],
                                    "preset" := v[5], "country" := v[6]];
    assert p[..8] == p;
  }

  /** The key of a job search holds every one of its eight parameters, normalised; none is ever dropped. */
  lemma JobspyKeyParams(q: Option<string>, location: Option<string>, days: int, limit: int,
                        sites: Option<string>, preset: Option<string>, country: string, isRemote: bool)
    ensures var k := JobspyCacheKey(q, location, days, limit, sites, preset, country, isRemote);
            && k.prefix == "jobspy"
            && k.params == map["q" := PStr(NormText(q)), "location" := PStr(NormText(location)),
                               "days" := PInt(days), "limit" := PInt(limit),
                               "sites" := PStr(NormText(sites)), "preset" := PStr(NormText(preset)),
                               "country" := PStr(NormCountry(country)), "is_remote" := PBool(isRemote)]
  {
    NormalizeEight([PStr(NormText(q)), PStr(NormText(location)), PInt(days), PInt(limit),
                    PStr(NormText(sites)), PStr(NormText(preset)), PStr(NormCountry(country)), PBool(isRemote)]);
  }

  /** The same for the three parameters of a feed search. */
  lemma {:induction false} NormalizeThree(a: ParamValue, b: ParamValue, c: ParamValue)
    ensures Normalize([("keywords", Some(a)), ("location", Some(b)), ("limit", Some(c))])
         == map["keywords" := a, "location" := b, "limit" := c]
  {
    var p1: seq<(string, Option<ParamValue>)> := [("keywords", Some(a))];
    var p2 := p1 + [("location", Some(b))];
    NormalizeSnoc([], "keywords", a);
    NormalizeSnoc(p1, "location", b);
    NormalizeSnoc(p2, "limit", c);
    assert p2 + [("limit", Some(c))] == [("keywords", Some(a)), ("location", Some(b)), ("limit", Some(c))];
  }

  /** The key of a feed search holds its three parameters, normalised. */
  lemma RssjobsKeyParams(keywords: string, location: string, limit: int)
    ensures var k := RssjobsCacheKey(keywords, location, limit);
            && k.prefix == "rssjobs"
            && k.params == map["keywords" := PStr(NormText(Some(keywords))),
                               "location" := PStr(NormText(Some(location))), "limit" := PInt(limit)]
  {
    NormalizeThree(PStr(NormText(Some(keywords))), PStr(NormText(Some(location))), PInt(limit));
  }

  /** Two searches whose query texts differ only in case or surrounding whitespace share a cache key. */
  lemma JobspyKeyIgnoresCaseAndPadding(a: string, q: string, b: string, location: Option<string>, days: int, limit: int,
                                       sites: Option<string>, preset: Option<string>, country: string, isRemote: bool)
    requires AllSpaces(a) && AllSpaces(b)
    ensures JobspyCacheKey(Some(a + q + b), location, days, limit, sites, preset, country, isRemote)
         == JobspyCacheKey(Some(q), location, days, limit, sites, preset, country, isRemote)
    ensures JobspyCacheKey(Some(Lower(q)), location, days, limit, sites, preset, country, isRemote)
         == JobspyCacheKey(Some(q), location, days, limit, sites, preset, country, isRemote)
    ensures JobspyCacheKey(None, location, days, limit, sites, preset, country, isRemote)
         == JobspyCacheKey(Some(""), location, days, limit, sites, preset, country, isRemote)
  {
    NormTextInvariance(a, q, b);
  }

  /** The same for the feed-search key, on both of its texts. */
  lemma RssjobsKeyIgnoresCaseAndPadding(a: string, keywords: string, b: string, c: string, location: string, d: string, limit: int)
    requires AllSpaces(a) && AllSpaces(b) && AllSpaces(c) && AllSpaces(d)
    ensures RssjobsCacheKey(a + keywords + b, c + location + d, limit) == RssjobsCacheKey(keywords, location, limit)
    ensures RssjobsCacheKey(Lower(keywords), Lower(location), limit) == RssjobsCacheKey(keywords, location, limit)
  {
    NormTextInvariance(a, keywords, b);
    NormTextInvariance(c, location, d);
  }

  /**
   * An empty country and "usa" share a key, but a country of only whitespace is
   * not defaulted: it is stripped to the empty text, and so gets a key of its own.
   */
  lemma BlankCountryNotDefaulted()
    ensures NormCountry("") == "usa"
    ensures NormCountry(" ") == ""
  {
    var usa := "usa";
    assert SpacesEnd(usa, 0) == 0;
    assert SpacesStart(usa, 0, 3) == 3;
    assert Strip(usa) == usa;
    assert Lower(usa) == usa;
    assert SpacesEnd(" ", 0) == 1;
  }

  // ---------------------------------------------------------------------------
  // The store

  /** A cached value and the time at which it stops being served. */
  datatype Entry<V> = Entry(value: V, expires: int)

  /** The store's content: the keys oldest first, and the entry of each key. */
  datatype Store<V> = Store(order: seq<CacheKey>, entries: map<CacheKey, Entry<V>>)

  predicate Distinct(s: seq<CacheKey>) {
    forall i, j :: 0 <= i < j < |s| ==> s[i] != s[j]
  }

  /** The order lists each stored key exactly once. */
  predicate WellFormed<V>(st: Store<V>) {
    && Distinct(st.order)
    && (forall k :: k in st.entries ==> k in st.order)
    && (forall k :: k in st.order ==> k in st.entries)
  }

  /** Dropping the first key of a sequence without repeats leaves one without repeats that no longer holds that key. */
  lemma DistinctTail(s: seq<CacheKey>)
    requires Distinct(s) && s != []
    ensures Distinct(s[1..]) && s[0] !in s[1..]
    ensures forall x :: x in s[1..] <==> x in s && x != s[0]
  {
    assert s == [s[0]] + s[1..];
  }

  /** One step of the removal on a sequence without repeats: the result has none, and is one shorter when `k` was there. */
  lemma RemoveKeyDistinctStep(s: seq<CacheKey>, k: CacheKey, rest: seq<CacheKey>)
    requires Distinct(s) && s != []
    requires forall x :: x in rest <==> x in s[1..] && x != k
    requires Distinct(rest)
    requires k in s[1..] ==> |rest| == |s| - 2
    requires k !in s[1..] ==> rest == s[1..]
    ensures var r := if s[0] == k then rest else [s[0]] + rest;
            Distinct(r) && (k in s ==> |r| == |s| - 1)
  {
    DistinctTail(s);
  }

  /** One step of the removal on a sequence without repeats: if the tail loses `k` in place, so does the whole. */
  lemma RemoveKeyOrderStep(s: seq<CacheKey>, k: CacheKey, rest: seq<CacheKey>)
    requires Distinct(s) && s != []
    requires k !in s[1..] ==> rest == s[1..]
    requires forall i :: 0 <= i < |s| - 1 && s[1..][i] == k ==> rest == s[1..][..i] + s[1..][i + 1..]
    ensures forall i :: 0 <= i < |s| && s[i] == k ==> (if s[0] == k then rest else [s[0]] + rest) == s[..i] + s[i + 1..]
  {
    forall i | 0 <= i < |s| && s[i] == k
      ensures (if s[0] == k then rest else [s[0]] + rest) == s[..i] + s[i + 1..]
    {
      if s[0] == k {
        assert i == 0;
        DistinctTail(s);
      } else {
        assert s[1..][i - 1] == k;
        assert s[..i] == [s[0]] + s[1..][..i - 1];
        assert s[i + 1..] == s[1..][i..];
      }
    }
  }

  /** The sequence with every occurrence of `k` taken out. */
  function RemoveKey(s: seq<CacheKey>, k: CacheKey): (r: seq<CacheKey>)
    ensures forall x :: x in r <==> x in s && x != k
    ensures |r| <= |s|
    ensures k !in s ==> r == s
    ensures Distinct(s) ==> Distinct(r)
    ensures Distinct(s) && k in s ==> |r| == |s| - 1
    ensures Distinct(s) ==> forall i :: 0 <= i < |s| && s[i] == k ==> r == s[..i] + s[i + 1..]
  {
    if s == [] then []
    else
      var rest := RemoveKey(s[1..], k);
      assert s == [s[0]] + s[1..];
      if Distinct(s) then
        DistinctTail(s);
        RemoveKeyDistinctStep(s, k, rest);
        RemoveKeyOrderStep(s, k, rest);
        if s[0] == k then rest else [s[0]] + rest
      else if s[0] == k then rest else [s[0]] + rest
  }

  /** How many entries a write pops before inserting: while the store is full, the oldest goes. */
  function Evicted(size: nat, maxEntries: int): (n: nat)
    ensures n <= size
    ensures maxEntries >= 1 ==> size - n < maxEntries
    ensures n > 0 ==> size - (n - 1) >= maxEntries
    ensures maxEntries <= 0 ==> n == size
  {
    if maxEntries <= 0 then size
    else if size >= maxEntries then size - maxEntries + 1
    else 0
  }

  /** `get(key)` at time `now`: the value served, and the store afterwards. */
  function Lookup<V>(st: Store<V>, key: CacheKey, now: int): (Option<V>, Store<V>) {
    if key !in st.entries then (None, st)
    else if now >= st.entries[key].expires then (None, Store(RemoveKey(st.order, key), st.entries - {key}))
    else (Some(st.entries[key].value), Store(RemoveKey(st.order, key) + [key], st.entries))
  }

  /** `set(key, value)` at time `now`: the oldest entries evicted while full, then the entry written and moved to the end. */
  function Insert<V>(st: Store<V>, key: CacheKey, value: V, now: int, ttl: int, maxEntries: int): Store<V>
    requires WellFormed(st)
  {
    var kept := st.order[Evicted(|st.order|, maxEntries)..];
    var entries := map k | k in kept :: st.entries[k];
    Store(RemoveKey(kept, key) + [key], entries[key := Entry(value, now + ttl)])
  }

  /** A key absent from the store is a miss that changes nothing. */
  lemma LookupAbsent<V>(st: Store<V>, key: CacheKey, now: int)
    requires key !in st.entries
    ensures Lookup(st, key, now) == (None, st)
  {
  }

  /** An expired entry is a miss that removes exactly that entry. */
  lemma LookupExpired<V>(st: Store<V>, key: CacheKey, now: int)
    requires WellFormed(st) && key in st.entries && now >= st.entries[key].expires
    ensures Lookup(st, key, now).0.None?
    ensures var after := Lookup(st, key, now).1;
            WellFormed(after) && after.entries == st.entries - {key}
            && |after.order| == |st.order| - 1
            && (forall i :: 0 <= i < |st.order| && st.order[i] == key ==> after.order == st.order[..i] + st.order[i + 1..])
  {
  }

  /** A live entry is served and its key moves to the end; keys and values stay as they were. */
  lemma LookupLive<V>(st: Store<V>, key: CacheKey, now: int)
    requires WellFormed(st) && key in st.entries && now < st.entries[key].expires
    ensures Lookup(st, key, now).0 == Some(st.entries[key].value)
    ensures var after := Lookup(st, key, now).1;
            WellFormed(after) && after.entries == st.entries
            && after.order[|after.order| - 1] == key && |after.order| == |st.order|
            && (forall i :: 0 <= i < |st.order| && st.order[i] == key ==> after.order == st.order[..i] + st.order[i + 1..] + [key])
  {
    var after := Lookup(st, key, now).1;
    assert after.order == RemoveKey(st.order, key) + [key];
  }

  /**
   * After a write the key is the newest and maps to the value and its expiry;
   * the keys kept are the newest ones from before, and the store holds at most
   * `maxEntries` entries when that is at least one.
   */
  lemma {:induction false} InsertSpec<V>(st: Store<V>, key: CacheKey, value: V, now: int, ttl: int, maxEntries: int)
    requires WellFormed(st)
    ensures var after := Insert(st, key, value, now, ttl, maxEntries);
            && WellFormed(after)
            && after.order[|after.order| - 1] == key
            && after.entries[key] == Entry(value, now + ttl)
            && (maxEntries >= 1 ==> |after.order| <= maxEntries)
            && (forall k :: k in after.entries && k != key ==>
                  k in st.order[Evicted(|st.order|, maxEntries)..] && after.entries[k] == st.entries[k])
            && (forall k :: k in st.order[Evicted(|st.order|, maxEntries)..] ==> k in after.entries)
            && var kept := st.order[Evicted(|st.order|, maxEntries)..];
               && (key !in kept ==> after.order == kept + [key])
               && (forall i :: 0 <= i < |kept| && kept[i] == key ==> after.order == kept[..i] + kept[i + 1..] + [key])
  {
    var e := Evicted(|st.order|, maxEntries);
    var kept := st.order[e..];
    assert Distinct(kept);
    var after := Insert(st, key, value, now, ttl, maxEntries);
    var rest := RemoveKey(kept, key);
    assert after.order == rest + [key];
    assert Distinct(after.order) by {
      assert key !in rest;
    }
    assert |rest| <= |kept| == |st.order| - e;
  }

  /** A value written is served back until it expires, however full the store was. */
  lemma InsertThenLookup<V>(st: Store<V>, key: CacheKey, value: V, now: int, ttl: int, maxEntries: int, later: int)
    requires WellFormed(st) && later < now + ttl
    ensures Lookup(Insert(st, key, value, now, ttl, maxEntries), key, later).0 == Some(value)
  {
    InsertSpec(st, key, value, now, ttl, maxEntries);
  }

  /** `TTLCache`: the store, its time to live and its size bound. */
  class TTLCache<V> {
    const ttl: int
    const maxEntries: int
    var order: seq<CacheKey>
    var entries: map<CacheKey, Entry<V>>

    ghost predicate Valid()
      reads this
    {
      WellFormed(Store(order, entries))
    }

    function Content(): Store<V>
      reads this
    {
      Store(order, entries)
    }

    constructor (ttlSeconds: int, maxEntries: int)
      ensures Valid() && Content() == Store([], map[])
      ensures this.ttl == ttlSeconds && this.maxEntries == maxEntries
    {
      this.ttl := ttlSeconds;
      this.maxEntries := maxEntries;
      order := [];
      entries := map[];
    }

    /** `get`, with the clock reading passed in. */
    method Get(key: CacheKey, now: int) returns (r: Option<V>)
      requires Valid()
      modifies this
      ensures Valid()
      ensures (r, Content()) == Lookup(old(Content()), key, now)
    {
      if key !in entries {
        return None;
      }
      var Entry(val, expires) := entries[key];
      if now >= expires {
        order := RemoveKey(order, key);
        entries := entries - {key};
        return None;
      }
      order := RemoveKey(order, key) + [key];
      r := Some(val);
    }

    /** The `while` loop of `set`: drop the oldest entry while the store is full. */
    method EvictWhileFull()
      requires Valid()
      modifies this
      ensures Valid()
      ensures order == old(order)[Evicted(|old(order)|, maxEntries)..]
      ensures forall k :: k in entries <==> k in order
      ensures forall k :: k in entries ==> entries[k] == old(entries)[k]
    {
      ghost var popped := 0;
      while |order| >= maxEntries && |order| > 0
        invariant 0 <= popped <= |old(order)|
        invariant order == old(order)[popped..]
        invariant forall k :: k in entries <==> k in order
        invariant forall k :: k in entries ==> entries[k] == old(entries)[k]
        invariant popped > 0 ==> |old(order)| - (popped - 1) >= maxEntries
        invariant Distinct(order)
        decreases |order|
      {
        var oldest := order[0];
        DistinctTail(order);
        order := order[1..];
        entries := entries - {oldest};
        popped := popped + 1;
      }
      assert popped == Evicted(|old(order)|, maxEntries);
    }

    /** `set`, with the clock reading passed in. */
    method Set(key: CacheKey, value: V, now: int)
      requires Valid()
      modifies this
      ensures Valid()
      ensures Content() == Insert(old(Content()), key, value, now, ttl, maxEntries)
    {
      EvictWhileFull();
      assert entries == map k | k in order :: old(entries)[k];
      entries := entries[key := Entry(value, now + ttl)];
      order := RemoveKey(order, key) + [key];
      InsertSpec(old(Content()), key, value, now, ttl, maxEntries);
    }
  }

  /** A write followed by a read of the same key before it expires serves the value written. */
  method SetThenGet<V>(cache: TTLCache<V>, key: CacheKey, value: V, now: int, later: int) returns (r: Option<V>)
    requires cache.Valid() && later < now + cache.ttl
    modifies cache
    ensures cache.Valid()
    ensures r == Some(value)
  {
    cache.Set(key, value, now);
    InsertThenLookup(old(cache.Content()), key, value, now, cache.ttl, cache.maxEntries, later);
    r := cache.Get(key, later);
  }
}
