/** The klines cache key: the three query parameters joined by `-`, an
    absent parameter written as the text `undefined`. */
module KlinesKey {
  import opened Wrappers

  /** How a template literal renders a query parameter. */
  function Render(param: Option<string>): string {
    match param
    case None => "undefined"
    case Some(s) => s
  }

  /** `${interval}-${limit}-${startTime}` */
  function CacheKey(interval: Option<string>, limit: Option<string>, startTime: Option<string>): string {
    Render(interval) + "-" + Render(limit) + "-" + Render(startTime)
  }

  /** A parameter whose rendering tells it apart from every other such
      parameter: not a present value that reads like an absent one. */
  predicate RendersDistinctly(param: Option<string>) {
    param.Some? ==> param.value != "undefined"
  }

  /** A parameter that can stand before a delimiter and still be recovered
      from the key: it renders distinctly and has no `-` inside. */
  predicate Unambiguous(param: Option<string>) {
    RendersDistinctly(param) && (param.Some? ==> '-' !in param.value)
  }

  /** Joining at a delimiter that the left parts do not contain can be undone. */
  lemma SplitAtDash(a: string, b: string, c: string, d: string)
    requires '-' !in a && '-' !in c
    requires a + "-" + b == c + "-" + d
    ensures a == c && b == d
  {
    var s := a + "-" + b;
    assert s == c + "-" + d;
    assert s[|a|] == '-' && s[|c|] == '-';
    assert forall i :: 0 <= i < |a| ==> a[i] != '-';
    assert forall i :: 0 <= i < |c| ==> c[i] != '-';
    assert |a| == |c|;
    assert a == s[..|a|] == c;
    assert b == s[|a| + 1..] == d;
  }

  lemma RenderInjective(p: Option<string>, q: Option<string>)
    requires RendersDistinctly(p) && RendersDistinctly(q)
    ensures Render(p) == Render(q) <==> p == q
    ensures Unambiguous(p) ==> '-' !in Render(p)
  {
  }

  /** When the interval and limit are unambiguous and the start time renders
      distinctly (it may contain `-`, as in `-1`), the key identifies the
      parameter triple: equal keys exactly for equal triples. */
  lemma CacheKeyInjective(
    interval: Option<string>, limit: Option<string>, startTime: Option<string>,
    interval': Option<string>, limit': Option<string>, startTime': Option<string>)
    requires Unambiguous(interval) && Unambiguous(limit) && RendersDistinctly(startTime)
    requires Unambiguous(interval') && Unambiguous(limit') && RendersDistinctly(startTime')
    ensures CacheKey(interval, limit, startTime) == CacheKey(interval', limit', startTime')
       <==> interval == interval' && limit == limit' && startTime == startTime'
  {
    if CacheKey(interval, limit, startTime) == CacheKey(interval', limit', startTime') {
      var i, l, t := Render(interval), Render(limit), Render(startTime);
      var i', l', t' := Render(interval'), Render(limit'), Render(startTime');
      RenderInjective(interval, interval');
      RenderInjective(limit, limit');
      RenderInjective(startTime, startTime');
      JoinRegroup(i, l, t);
      JoinRegroup(i', l', t');
      SplitAtDash(i, l + "-" + t, i', l' + "-" + t');
      SplitAtDash(l, t, l', t');
    }
  }

  /** The key read as its first part, the delimiter, and the rest. */
  lemma JoinRegroup(a: string, b: string, c: string)
    ensures a + "-" + b + "-" + c == a + "-" + (b + "-" + c)
  {
  }

  /** In general the key is not injective: a `-` inside a value, or a present
      value `undefined`, makes distinct triples share one key. */
  lemma CacheKeyCollisions()
    ensures CacheKey(Some("1h-4h"), Some("10"), None) == CacheKey(Some("1h"), Some("4h-10"), None)
    ensures CacheKey(None, Some("5"), None) == CacheKey(Some("undefined"), Some("5"), Some("undefined"))
  {
  }

  /** Requests that differ in one parameter, or in which parameter is absent,
      get different keys. */
  lemma DistinctRequestsDistinctKeys()
    ensures CacheKey(Some("1"), Some("2"), Some("3")) != CacheKey(Some("1"), Some("2"), Some("4"))
    ensures CacheKey(None, Some("5"), None) != CacheKey(Some("5"), None, None)
    ensures CacheKey(Some("1h"), Some("10"), Some("100")) != CacheKey(Some("1h"), Some("10"), Some("200"))
    ensures CacheKey(Some("1h"), Some("10"), Some("-1")) != CacheKey(Some("1h"), Some("10"), Some("1"))
  {
    CacheKeyInjective(Some("1"), Some("2"), Some("3"), Some("1"), Some("2"), Some("4"));
    CacheKeyInjective(None, Some("5"), None, Some("5"), None, None);
    CacheKeyInjective(Some("1h"), Some("10"), Some("100"), Some("1h"), Some("10"), Some("200"));
    CacheKeyInjective(Some("1h"), Some("10"), Some("-1"), Some("1h"), Some("10"), Some("1"));
  }

  /** Property names every plain JavaScript object inherits from Object.prototype. */
  const INHERITED_NAMES: set<string> := {
    "constructor", "__proto__", "hasOwnProperty", "isPrototypeOf",
    "propertyIsEnumerable", "toString", "toLocaleString", "valueOf",
    "__defineGetter__", "__defineSetter__", "__lookupGetter__", "__lookupSetter__"
  }

  /** Every key contains the delimiter, so no key names an inherited
      property: looking a key up in the klines dictionaries sees only what
      the handler wrote there, which is what modelling them as maps assumes. */
  lemma CacheKeyNeverInherited(interval: Option<string>, limit: Option<string>, startTime: Option<string>)
    ensures '-' in CacheKey(interval, limit, startTime)
    ensures CacheKey(interval, limit, startTime) !in INHERITED_NAMES
  {
    var key := CacheKey(interval, limit, startTime);
    assert key[|Render(interval)|] == '-';
    forall name | name in INHERITED_NAMES
      ensures '-' !in name
    {
    }
  }
}
