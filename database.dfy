/**
 * Record projections of `rana.database`: the None-passing converters and the
 * API views that `fetch_user` and `fetch_heartbeat` build from a row. The
 * sqlite connection and its queries are not modelled; a row, or its absence,
 * is an input.
 */
module Database {
  import opened Common

  /**
   * `datetime.fromtimestamp(t).isoformat()` of a POSIX timestamp, kept
   * symbolic: the local-time formatting is not modelled.
   */
  datatype IsoTime = IsoOf(posix: int)

  /** `str(uuid.UUID(identifier))`, kept symbolic. */
  datatype UuidText = UuidOf(identifier: string)

  /** `timestamp_`: None stays None, a timestamp becomes its ISO text. */
  function Timestamp(tstamp: Option<int>): (r: Option<IsoTime>)
    ensures r.None? <==> tstamp.None?
    ensures r.Some? ==> r.value.posix == tstamp.value
  {
    match tstamp
    case None => None
    case Some(t) => Some(IsoOf(t))
  }

  /** `uuid_`: None stays None, an identifier becomes its canonical text. */
  function Uuid(identifier: Option<string>): (r: Option<UuidText>)
    ensures r.None? <==> identifier.None?
    ensures r.Some? ==> r.value.identifier == identifier.value
  {
    match identifier
    case None => None
    case Some(s) => Some(UuidOf(s))
  }

  /** The characters of the argument of `website.lstrip('https://')`. */
  const WebsiteStripChars: set<char> := {'h', 't', 'p', 's', ':', '/'}

  /**
   * Python's `s.lstrip(chars)`: removes the longest leading run of characters
   * that belong to `chars` (a set of characters, not a prefix).
   */
  function LStrip(s: string, chars: set<char>): (r: string)
    ensures |r| <= |s| && r == s[|s| - |r|..]
    ensures r == [] || r[0] !in chars
    ensures forall i :: 0 <= i < |s| - |r| ==> s[i] in chars
  {
    if s != [] && s[0] in chars then LStrip(s[1..], chars) else s
  }

  /** `user['website'].lstrip('https://')`. */
  function HumanReadableWebsite(website: string): string {
    LStrip(website, WebsiteStripChars)
  }

  /** The columns `fetch_user` selects from `users`. */
  datatype UserRow = UserRow(
    id: Option<string>,
    username: string,
    displayName: Option<string>,
    website: Option<string>,
    createdAt: int,
    modifiedAt: Option<int>,
    lastHeartbeatAt: Option<int>,
    lastPlugin: Option<string>,
    lastPluginName: Option<string>,
    lastProject: Option<string>)

  /**
   * The API view of a user. `humanReadableWebsite` is None when the dict has
   * no `human_readable_website` key; `photo` is a key whose value is None.
   */
  datatype User = User(
    id: Option<UuidText>,
    username: string,
    displayName: Option<string>,
    fullName: Option<string>,
    website: Option<string>,
    createdAt: Option<IsoTime>,
    modifiedAt: Option<IsoTime>,
    lastHeartbeatAt: Option<int>,
    lastPlugin: Option<string>,
    lastPluginName: Option<string>,
    lastProject: Option<string>,
    loggedTimePublic: bool,
    languagesUsedPublic: bool,
    email: string,
    emailPublic: bool,
    photo: Option<string>,
    isHireable: bool,
    hasPremiumFeatures: bool,
    plan: string,
    location: string,
    timezone: string,
    humanReadableWebsite: Option<string>)

  /**
   * `fetch_user` given the row the query returned, if any: the user dict,
   * to which `human_readable_website` is added when the website is not None.
   * `created_at` and `modified_at` go through `timestamp_`, while
   * `last_heartbeat_at` is passed on as the raw timestamp.
   */
  function FetchUser(row: Option<UserRow>): (r: Option<User>)
    ensures r.None? <==> row.None?
    ensures r.Some? ==> r.value.displayName == r.value.fullName == row.value.displayName
    ensures r.Some? ==>
      !r.value.loggedTimePublic && !r.value.languagesUsedPublic && !r.value.emailPublic &&
      !r.value.isHireable && !r.value.hasPremiumFeatures && r.value.plan == "basic"
    ensures r.Some? ==> r.value.website == row.value.website
    ensures r.Some? ==>
      r.value.id == Uuid(row.value.id) && r.value.username == row.value.username &&
      r.value.createdAt == Timestamp(Some(row.value.createdAt)) &&
      r.value.modifiedAt == Timestamp(row.value.modifiedAt) &&
      r.value.lastHeartbeatAt == row.value.lastHeartbeatAt
    ensures r.Some? ==> (r.value.humanReadableWebsite.Some? <==> row.value.website.Some?)
    ensures r.Some? && r.value.website.Some? && r.value.humanReadableWebsite.Some? ==>
      var w, h := r.value.website.value, r.value.humanReadableWebsite.value;
      |h| <= |w| && h == w[|w| - |h|..] && (h == [] || h[0] !in WebsiteStripChars) &&
      forall i :: 0 <= i < |w| - |h| ==> w[i] in WebsiteStripChars
  {
    match row
    case None => None
    case Some(row) =>
      var user := User(
        Uuid(row.id), row.username, row.displayName, row.displayName, row.website,
        Timestamp(Some(row.createdAt)), Timestamp(row.modifiedAt),
        row.lastHeartbeatAt, row.lastPlugin, row.lastPluginName, row.lastProject,
        false, false,
        "uwu@uwu.com", false,
        None,
        false, false, "basic", "Canberra, Australia", "America/New_York",
        None);
      if user.website.Some? then
        Some(user.(humanReadableWebsite := Some(HumanReadableWebsite(user.website.value))))
      else
        Some(user)
  }

  /** The column `fetch_heartbeat` selects from `heartbeats`. */
  datatype HeartbeatRow = HeartbeatRow(id: Option<string>)

  /** The API view of a heartbeat: only its id. */
  datatype HeartbeatView = HeartbeatView(id: Option<UuidText>)

  /** `fetch_heartbeat` given the row the query returned, if any. */
  function FetchHeartbeat(row: Option<HeartbeatRow>): (r: Option<HeartbeatView>)
    ensures r.None? <==> row.None?
    ensures r.Some? ==> r.value.id == Uuid(row.value.id)
  {
    match row
    case None => None
    case Some(row) => Some(HeartbeatView(Uuid(row.id)))
  }

  // ---------------------------------------------------------------------

  /**
   * `lstrip` is determined by its contract: a split of `s` into a run of
   * characters from `chars` and a rest that is empty or starts outside
   * `chars` is the one `lstrip` makes.
   */
  lemma {:induction false} LStripUnique(s: string, chars: set<char>, run: string, rest: string)
    requires s == run + rest
    requires forall i :: 0 <= i < |run| ==> run[i] in chars
    requires rest == [] || rest[0] !in chars
    ensures LStrip(s, chars) == rest
  {
    if run != [] {
      assert s[1..] == run[1..] + rest;
      LStripUnique(s[1..], chars, run[1..], rest);
    } else {
      assert s == rest;
    }
  }

  /**
   * `lstrip('https://')` strips characters, not the prefix: it also eats the
   * leading "th" of the host.
   */
  lemma StripEatsHost()
    ensures HumanReadableWebsite("https://thing.com") == "ing.com"
  {
    var s := "https://thing.com";
    assert s == "https://th" + "ing.com";
    LStripUnique(s, WebsiteStripChars, "https://th", "ing.com");
  }

  /** A host that starts outside the stripped characters is kept whole. */
  lemma StripKeepsHost(host: string)
    requires host != [] && host[0] !in WebsiteStripChars
    ensures HumanReadableWebsite("https://" + host) == host
    ensures HumanReadableWebsite("http://" + host) == host
  {
    LStripUnique("https://" + host, WebsiteStripChars, "https://", host);
    LStripUnique("http://" + host, WebsiteStripChars, "http://", host);
  }
}
