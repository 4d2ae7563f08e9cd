/** The web client's mappers from the backend's tool payloads to the shapes the UI renders
    (web/src/api/client.ts:136-234). JavaScript's `||`, `??`, `Array.isArray`, property access
    and `String(...)` are written out over JSON values; the WHATWG `new URL(...)` constructor is
    a parameter, and so is the clock behind `new Date().toISOString()`. */
module Client {
  import opened Wrappers
  import opened Strings
  import opened Json

  /** `new URL(u).hostname`, or `None` when the constructor throws. */
  type HostnameOf = string -> Option<string>

  /** The backend's `ToolInfo` payload; `sources` and `media_items` may be absent. */
  datatype ToolInfo = ToolInfo(
    id: string, name: string, canonicalUrl: Option<string>, status: string, onePager: Json,
    documents: int, updates: int, sources: Option<seq<string>>, mediaItems: Option<seq<Json>>)

  /** The backend's `ToolListItem` payload. */
  datatype ToolListItem = ToolListItem(
    id: string, name: string, status: string, watchlist: bool, lastUpdated: string,
    updates: int, canonicalUrl: string, overview: Option<string>)

  datatype PriceTier = PriceTier(tier: string, price: string, verified: bool)
  datatype TechItem = TechItem(techName: Json, techVerified: bool)

  /** A media highlight; absent properties of the item read as `None` (`undefined`). */
  datatype Highlight = Highlight(
    platform: Option<Json>, url: Option<Json>, title: Option<Json>, author: Option<Json>,
    thumbnailUrl: Option<Json>, metrics: Json)

  datatype OnePagerView = OnePagerView(
    overview: Json, pricing: seq<PriceTier>, techStack: seq<TechItem>, keyFeatures: seq<Json>,
    howToUse: seq<Json>, useCases: seq<Json>, userFeedback: seq<Json>, integrations: seq<Json>,
    recentUpdates: seq<Json>, competitors: seq<Json>, lastUpdated: Json, sources: seq<Json>)

  /** The detail view's tool. */
  datatype UiTool = UiTool(
    toolId: string, displayName: string, icon: string, description: Json, canonicalUrl: string,
    categories: seq<string>, uiStatus: string, isWatchlisted: bool, page: OnePagerView,
    chatHistory: seq<string>, highlights: seq<Highlight>)

  datatype CardPager = CardPager(
    cardOverview: string, cardPricing: seq<PriceTier>, cardTechStack: seq<TechItem>,
    cardFeatures: seq<Json>, cardLastUpdated: string, cardSources: seq<Json>)

  /** The gallery's card. */
  datatype UiCard = UiCard(
    cardId: string, cardName: string, cardIcon: string, cardDescription: string,
    cardCategories: seq<string>, cardStatus: string, cardWatchlisted: bool, cardPage: CardPager,
    cardChatHistory: seq<string>)

  const IconFallback := "ri-robot-2-line"
  const FaviconPrefix := "https://www.google.com/s2/favicons?domain="
  const FaviconSuffix := "&sz=64"
  const DescriptionLimit: nat := 180

  // ---------------------------------------------------------------------------
  // JavaScript value semantics

  /** JavaScript truthiness; unlike Python's, an empty array or object is truthy. */
  predicate JsTruthy(j: Json)
  {
    match j
    case JNull => false
    case JBool(b) => b
    case JNum(n) => n != 0
    case JStr(s) => s != []
    case JArr(_) => true
    case JObj(_) => true
  }

  /** `v || d` where `v` may be `undefined` (`None`). */
  function Or(v: Option<Json>, d: Json): (r: Json)
    ensures v.Some? && JsTruthy(v.value) ==> r == v.value
    ensures !(v.Some? && JsTruthy(v.value)) ==> r == d
  {
    if v.Some? && JsTruthy(v.value) then v.value else d
  }

  /** `Array.isArray(v) ? v : d`. */
  function ArrayOr(v: Option<Json>, d: seq<Json>): seq<Json>
  {
    if v.Some? && v.value.JArr? then v.value.items else d
  }

  /** `value.prop` on a value that is not `null`: objects answer with their field,
      every other non-null value with `undefined`. */
  function Prop(v: Json, key: string): Option<Json>
  {
    if v.JObj? then Get(v.fields, key) else None
  }

  /** `String(v)`: arrays join their elements' strings with commas (a `null` element is empty),
      objects read "[object Object]". */
  function JsString(j: Json): string
    decreases j, 1
  {
    match j
    case JNull => "null"
    case JBool(b) => if b then "true" else "false"
    case JNum(n) => IntToString(n)
    case JStr(s) => s
    case JArr(items) => JsJoin(j, items)
    case JObj(_) => "[object Object]"
  }

  function JsJoin(parent: Json, items: seq<Json>): string
    requires forall i :: 0 <= i < |items| ==> items[i] < parent
    decreases parent, 0, |items|
  {
    if items == [] then ""
    else (if items[0].JNull? then "" else JsString(items[0]))
         + (if |items| > 1 then "," + JsJoin(parent, items[1..]) else "")
  }

  /** `String(v ?? '')`. */
  function PriceText(v: Json): (s: string)
    ensures v.JStr? ==> s == v.s
    ensures v.JNull? ==> s == ""
  {
    if v.JNull? then "" else JsString(v)
  }

  // ---------------------------------------------------------------------------
  // Host, name and icon

  /** `.slice(-2)` on an array. */
  function LastTwo(labels: seq<string>): (r: seq<string>)
    ensures |r| == Min(2, |labels|) && r == labels[|labels| - |r|..]
  {
    if |labels| <= 2 then labels else labels[|labels| - 2..]
  }

  /** `hostname.split('.').slice(-2).join('.')`: the hostname's last two labels. */
  function SiteOf(hostname: string): (host: string)
    ensures EndsWith(hostname, host)
    ensures SplitOn(host, '.') == LastTwo(SplitOn(hostname, '.'))
    ensures |SplitOn(host, '.')| <= 2
    ensures NoChar(hostname, '.') ==> host == hostname
  {
    SiteFacts(hostname);
    Join(".", LastTwo(SplitOn(hostname, '.')))
  }

  lemma SiteFacts(hostname: string)
    ensures var host := Join(".", LastTwo(SplitOn(hostname, '.')));
      EndsWith(hostname, host) && SplitOn(host, '.') == LastTwo(SplitOn(hostname, '.'))
      && (NoChar(hostname, '.') ==> host == hostname)
  {
    var labels := SplitOn(hostname, '.');
    JoinSplit(hostname, '.');
    if |labels| > 2 {
      JoinSplitAt(".", labels, |labels| - 2);
    }
    SplitOnPieces(hostname, '.');
    SplitOnJoin(LastTwo(labels), '.');
    if NoChar(hostname, '.') {
      IndexOfAbsent(hostname, '.');
    }
  }

  /** Joining the pieces of a split restores the string. */
  lemma {:induction false} JoinSplit(s: string, c: char)
    ensures Join([c], SplitOn(s, c)) == s
    decreases |s|
  {
    var i := IndexOf(s, c);
    if i < |s| {
      JoinSplit(s[i + 1..], c);
      assert s == s[..i] + [c] + s[i + 1..];
    }
  }

  /** A join splits at any inner boundary into the joins of the two halves. */
  lemma {:induction false} JoinSplitAt(sep: string, parts: seq<string>, k: nat)
    requires 0 < k < |parts|
    ensures Join(sep, parts) == Join(sep, parts[..k]) + sep + Join(sep, parts[k..])
    decreases k
  {
    if k > 1 {
      JoinSplitAt(sep, parts[1..], k - 1);
      assert parts[1..][..k - 1] == parts[..k][1..];
      assert parts[1..][k - 1..] == parts[k..];
    }
  }

  /** Applying the last-two-labels rule to its own result changes nothing. */
  lemma SiteIdempotent(hostname: string)
    ensures SiteOf(SiteOf(hostname)) == SiteOf(hostname)
  {
    var host := SiteOf(hostname);
    JoinSplit(host, '.');
  }

  /** `mapTool`'s host: "" for an absent or empty canonical URL and for one the URL
      constructor rejects, else the site of its hostname. */
  function ToolHost(hostnameOf: HostnameOf, canonicalUrl: Option<string>): (host: string)
    ensures canonicalUrl.None? || canonicalUrl == Some("") ==> host == ""
    ensures canonicalUrl.Some? && canonicalUrl.value != "" ==>
      match hostnameOf(canonicalUrl.value)
      case None => host == ""
      case Some(h) => EndsWith(h, host) && |SplitOn(host, '.')| <= 2
  {
    if canonicalUrl.None? || canonicalUrl.value == "" then ""
    else match hostnameOf(canonicalUrl.value)
      case None => ""
      case Some(h) => SiteOf(h)
  }

  /** `mapListItem`'s host: the same rule without the emptiness guard. */
  function CardHost(hostnameOf: HostnameOf, canonicalUrl: string): (host: string)
    ensures hostnameOf(canonicalUrl).None? ==> host == ""
    ensures hostnameOf(canonicalUrl).Some? ==>
      EndsWith(hostnameOf(canonicalUrl).value, host) && |SplitOn(host, '.')| <= 2
  {
    match hostnameOf(canonicalUrl)
    case None => ""
    case Some(h) => SiteOf(h)
  }

  /** `s.charAt(0).toUpperCase() + s.slice(1)`. */
  function Capitalize(s: string): (r: string)
    ensures |r| == |s| && (s != [] ==> r[1..] == s[1..])
    ensures s != [] ==> r[0] == ToUpper(s[0])
    ensures Lower(r) == Lower(s)
  {
    if s == [] then [] else [ToUpper(s[0])] + s[1..]
  }

  /** The display name: the given name unless it is empty or starts with "http"; then the
      capitalised host; then (`mapTool` only, `keepUrlName`) the given name; then "Unknown". */
  function DisplayName(name: string, host: string, keepUrlName: bool): (r: string)
    ensures r != []
    ensures name != [] && !StartsWith(name, "http") ==> r == name
    ensures (name == [] || StartsWith(name, "http")) && host != [] ==> r == Capitalize(host)
    ensures (name == [] || StartsWith(name, "http")) && host == [] ==>
      r == (if keepUrlName && name != [] then name else "Unknown")
  {
    if name != [] && !StartsWith(name, "http") then name
    else if host != [] then Capitalize(host)
    else if keepUrlName && name != [] then name
    else "Unknown"
  }

  /** `favicon || 'ri-robot-2-line'` with the favicon service URL built from the host. */
  function Icon(host: string): (icon: string)
    ensures host == [] <==> icon == IconFallback
    ensures host != [] ==>
      (StartsWith(icon, FaviconPrefix) && EndsWith(icon, FaviconSuffix)
       && |icon| == |FaviconPrefix| + |host| + |FaviconSuffix|
       && icon[|FaviconPrefix|..|icon| - |FaviconSuffix|] == host)
  {
    if host != [] then FaviconPrefix + host + FaviconSuffix else IconFallback
  }

  // ---------------------------------------------------------------------------
  // Pricing

  /** `Object.keys(obj).map(k => ({tier: k, price: String(obj[k] ?? ''), verified: true}))`
      over an object's fields. */
  function FieldTiers(fields: seq<(string, Json)>): (tiers: seq<PriceTier>)
    ensures |tiers| == |fields|
    ensures forall i :: 0 <= i < |fields| ==>
      tiers[i].tier == fields[i].0 && tiers[i].price == PriceText(fields[i].1) && tiers[i].verified
  {
    if fields == [] then [] else [PriceTier(fields[0].0, PriceText(fields[0].1), true)] + FieldTiers(fields[1..])
  }

  /** The same over an array, whose keys are its indices. */
  function IndexTiers(items: seq<Json>): (tiers: seq<PriceTier>)
    ensures |tiers| == |items|
    ensures forall i :: 0 <= i < |items| ==>
      tiers[i].tier == NatToString(i) && tiers[i].price == PriceText(items[i]) && tiers[i].verified
  {
    seq(|items|, i requires 0 <= i < |items| => PriceTier(NatToString(i), PriceText(items[i]), true))
  }

  /** `typeof p === 'object' && p ? p : {}`, then one tier per key: arrays are objects too,
      `null` and every primitive give no tiers. */
  function Pricing(p: Option<Json>): (tiers: seq<PriceTier>)
    ensures p.Some? && p.value.JObj? ==> |tiers| == |p.value.fields|
    ensures p.Some? && p.value.JArr? ==> |tiers| == |p.value.items|
    ensures !(p.Some? && (p.value.JObj? || p.value.JArr?)) ==> tiers == []
    ensures forall i :: 0 <= i < |tiers| ==> tiers[i].verified
  {
    if p.Some? && p.value.JObj? then FieldTiers(p.value.fields)
    else if p.Some? && p.value.JArr? then IndexTiers(p.value.items)
    else []
  }

  /** The pricing object a tier list stands for. */
  function TierObject(tiers: seq<PriceTier>): (fields: seq<(string, Json)>)
    ensures |fields| == |tiers|
  {
    if tiers == [] then [] else [(tiers[0].tier, JStr(tiers[0].price))] + TierObject(tiers[1..])
  }

  predicate StringValued(fields: seq<(string, Json)>)
  {
    forall i :: 0 <= i < |fields| ==> fields[i].1.JStr?
  }

  /** A pricing object whose values are strings is recovered from its tiers, keys in order. */
  lemma {:induction false} PricingRoundTrip(fields: seq<(string, Json)>)
    requires StringValued(fields)
    ensures TierObject(FieldTiers(fields)) == fields
  {
    if fields != [] {
      assert StringValued(fields[1..]) by {
        forall i | 0 <= i < |fields[1..]| ensures fields[1..][i].1.JStr? {
          assert fields[1..][i] == fields[i + 1];
        }
      }
      PricingRoundTrip(fields[1..]);
      assert FieldTiers(fields)[1..] == FieldTiers(fields[1..]);
    }
  }

  /** And every verified tier list is recovered from the object it stands for. */
  lemma {:induction false} TiersRoundTrip(tiers: seq<PriceTier>)
    requires forall i :: 0 <= i < |tiers| ==> tiers[i].verified
    ensures FieldTiers(TierObject(tiers)) == tiers
  {
    if tiers != [] {
      TiersRoundTrip(tiers[1..]);
      assert TierObject(tiers)[1..] == TierObject(tiers[1..]);
    }
  }

  // ---------------------------------------------------------------------------
  // Highlights

  /** One `media_items` entry mapped to a highlight; `None` where the property access on a
      `null` entry throws. */
  function HighlightOf(m: Json): (h: Option<Highlight>)
    ensures h.None? <==> m.JNull?
    ensures h.Some? ==>
      (h.value.platform == Prop(m, "platform") && h.value.url == Prop(m, "url")
       && (h.value.author.Some? && JsTruthy(h.value.author.value) <==>
           (Prop(m, "author").Some? && JsTruthy(Prop(m, "author").value))
           || (Prop(m, "author_handle").Some? && JsTruthy(Prop(m, "author_handle").value)))
       && JsTruthy(h.value.metrics))
  {
    if m.JNull? then None
    else
      var a := Prop(m, "author");
      Some(Highlight(
        Prop(m, "platform"), Prop(m, "url"), Prop(m, "title"),
        if a.Some? && JsTruthy(a.value) then a else Prop(m, "author_handle"),
        Prop(m, "thumbnail_url"), Or(Prop(m, "metrics"), JObj([]))))
  }

  /** `(media_items || []).map(...)`: `None` when some entry is `null`. */
  function Highlights(items: seq<Json>): (hs: Option<seq<Highlight>>)
    ensures hs.None? <==> exists i :: 0 <= i < |items| && items[i].JNull?
    ensures hs.Some? ==>
      (|hs.value| == |items| && forall i :: 0 <= i < |items| ==> Some(hs.value[i]) == HighlightOf(items[i]))
  {
    if items == [] then Some([])
    else
      match HighlightOf(items[0])
      case None => None
      case Some(h) =>
        var rest := Highlights(items[1..]);
        if rest.None? then
          var i :| 0 <= i < |items[1..]| && items[1..][i].JNull?;
          assert items[i + 1].JNull?;
          None
        else Some([h] + rest.value)
  }

  function AsJson(ss: seq<string>): (js: seq<Json>)
    ensures |js| == |ss| && forall i :: 0 <= i < |ss| ==> js[i] == JStr(ss[i])
  {
    if ss == [] then [] else [JStr(ss[0])] + AsJson(ss[1..])
  }

  // ---------------------------------------------------------------------------
  // The mappers

  /** A list field of the view: the one-pager's array under `key`, or [] when that is
      missing or not an array. */
  predicate ListField(op: seq<(string, Json)>, key: string, got: seq<Json>)
  {
    (Get(op, key).Some? && Get(op, key).value.JArr? ==> got == Get(op, key).value.items)
    && (!(Get(op, key).Some? && Get(op, key).value.JArr?) ==> got == [])
  }

  /** `mapTool`: the detail view of a backend tool. `Err` is the TypeError thrown by reading a
      property of a `null` media item. */
  function MapTool(hostnameOf: HostnameOf, nowIso: string, info: ToolInfo): (r: Result<UiTool>)
    ensures r.Err? <==> info.mediaItems.Some? && exists i :: 0 <= i < |info.mediaItems.value| && info.mediaItems.value[i].JNull?
    ensures r.Ok? ==>
      var host := ToolHost(hostnameOf, info.canonicalUrl);
      var t := r.value;
      var op := if info.onePager.JObj? then info.onePager.fields else [];
      t.toolId == info.id
      && t.displayName == DisplayName(info.name, host, true)
      && t.icon == Icon(host)
      && (t.uiStatus == "verified" <==> info.status == "partially_verified")
      && (t.uiStatus == "default" <==> info.status != "partially_verified")
      && t.canonicalUrl == info.canonicalUrl.GetOr("")
      && t.page.pricing == Pricing(Get(op, "pricing"))
      && ListField(op, "features", t.page.keyFeatures)
      && ListField(op, "how_to_use", t.page.howToUse)
      && ListField(op, "use_cases", t.page.useCases)
      && ListField(op, "user_feedback", t.page.userFeedback)
      && ListField(op, "integrations", t.page.integrations)
      && ListField(op, "recent_updates", t.page.recentUpdates)
      && ListField(op, "competitors", t.page.competitors)
      && |t.page.techStack| == |ArrayOr(Get(op, "tech_stack"), [])|
      && (forall i :: 0 <= i < |t.page.techStack| ==> t.page.techStack[i] == TechItem(ArrayOr(Get(op, "tech_stack"), [])[i], true))
      && t.page.sources == ArrayOr(Get(op, "sources"), AsJson(info.sources.GetOr([])))
      && t.page.lastUpdated == Or(Get(op, "last_updated"), JStr(nowIso))
      && t.description == t.page.overview == Or(Get(op, "overview"), JStr(""))
      && t.highlights == Highlights(info.mediaItems.GetOr([])).value
      && t.categories == [] && t.chatHistory == [] && !t.isWatchlisted
  {
    var op := if info.onePager.JObj? then info.onePager.fields else [];
    var host := ToolHost(hostnameOf, info.canonicalUrl);
    var tech := ArrayOr(Get(op, "tech_stack"), []);
    var overview := Or(Get(op, "overview"), JStr(""));
    match Highlights(info.mediaItems.GetOr([]))
    case None => Err("TypeError: media item is null")
    case Some(hs) =>
      Ok(UiTool(
        info.id, DisplayName(info.name, host, true), Icon(host), overview, info.canonicalUrl.GetOr(""), [],
        if info.status == "partially_verified" then "verified" else "default", false,
        OnePagerView(
          overview, Pricing(Get(op, "pricing")),
          seq(|tech|, i requires 0 <= i < |tech| => TechItem(tech[i], true)),
          ArrayOr(Get(op, "features"), []), ArrayOr(Get(op, "how_to_use"), []),
          ArrayOr(Get(op, "use_cases"), []), ArrayOr(Get(op, "user_feedback"), []),
          ArrayOr(Get(op, "integrations"), []), ArrayOr(Get(op, "recent_updates"), []),
          ArrayOr(Get(op, "competitors"), []), Or(Get(op, "last_updated"), JStr(nowIso)),
          ArrayOr(Get(op, "sources"), AsJson(info.sources.GetOr([])))),
        [], hs))
  }

  /** `mapListItem`'s badge: "updated" for a watched tool with updates, else "new" for a
      partially verified one, else "default". */
  function CardStatus(item: ToolListItem): (s: string)
    ensures s == "updated" <==> item.watchlist && item.updates > 0
    ensures s == "new" <==> !(item.watchlist && item.updates > 0) && item.status == "partially_verified"
    ensures s == "default" <==> !(item.watchlist && item.updates > 0) && item.status != "partially_verified"
  {
    var status := if item.status == "partially_verified" then "new" else "default";
    if item.watchlist && item.updates > 0 then "updated" else status
  }

  /** `(overview || '').slice(0, 180)`. */
  function Description(overview: Option<string>): (d: string)
    ensures |d| <= DescriptionLimit
    ensures overview.Some? ==> StartsWith(overview.value, d)
    ensures overview.None? ==> d == ""
    ensures overview.Some? && |overview.value| <= DescriptionLimit ==> d == overview.value
    ensures overview.Some? && |overview.value| > DescriptionLimit ==> |d| == DescriptionLimit
  {
    Take(overview.GetOr(""), DescriptionLimit)
  }

  /** `mapListItem`: the gallery card of a listed tool. */
  function MapListItem(hostnameOf: HostnameOf, nowIso: string, item: ToolListItem): (c: UiCard)
    ensures c.cardId == item.id && c.cardWatchlisted == item.watchlist
    ensures c.cardName == DisplayName(item.name, CardHost(hostnameOf, item.canonicalUrl), false)
    ensures c.cardIcon == Icon(CardHost(hostnameOf, item.canonicalUrl))
    ensures c.cardStatus == CardStatus(item)
    ensures c.cardDescription == Description(item.overview)
    ensures StartsWith(c.cardPage.cardOverview, c.cardDescription)
    ensures c.cardPage.cardLastUpdated == if item.lastUpdated != "" then item.lastUpdated else nowIso
    ensures c.cardPage.cardPricing == [] && c.cardPage.cardTechStack == [] && c.cardPage.cardFeatures == []
      && c.cardPage.cardSources == [] && c.cardCategories == [] && c.cardChatHistory == []
  {
    var host := CardHost(hostnameOf, item.canonicalUrl);
    UiCard(
      item.id, DisplayName(item.name, host, false), Icon(host), Description(item.overview), [],
      CardStatus(item), item.watchlist,
      CardPager(item.overview.GetOr(""), [], [], [], if item.lastUpdated != "" then item.lastUpdated else nowIso, []),
      [])
  }

  /** For one tool with a non-empty canonical URL, the gallery card and the detail view show
      the same icon, and the same name unless the name is a URL and no host could be read
      (then the card says "Unknown" and the detail view the URL-like name). */
  lemma CardMatchesDetail(hostnameOf: HostnameOf, name: string, url: string)
    requires url != ""
    ensures var toolHost := ToolHost(hostnameOf, Some(url));
      var cardHost := CardHost(hostnameOf, url);
      Icon(toolHost) == Icon(cardHost)
      && (DisplayName(name, toolHost, true) == DisplayName(name, cardHost, false)
          <==> !(StartsWith(name, "http") && Icon(cardHost) == IconFallback))
  {
    var host := ToolHost(hostnameOf, Some(url));
    assert host == CardHost(hostnameOf, url);
    if name != [] && !StartsWith(name, "http") {
    } else if host != [] {
      assert DisplayName(name, host, true) == Capitalize(host) == DisplayName(name, host, false);
    } else if name != [] {
      assert DisplayName(name, host, false) == "Unknown";
      assert DisplayName(name, host, true) == name;
      assert name[0] == 'h' != "Unknown"[0];
      assert Icon(host) == IconFallback;
    } else {
      assert DisplayName(name, host, true) == "Unknown" == DisplayName(name, host, false);
    }
  }
}
