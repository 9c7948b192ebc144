/**
 * The configuration pieces of the web application: the boolean flag parser,
 * the normalisation of the group filter, the hub request headers, and the
 * metrics sub-application that stores the settings.
 */
module App {

  import opened Wrappers
  import Emission

  /** ASCII upper-case letters folded to lower case; every other character unchanged. */
  function LowerChar(c: char): char
  {
    if 'A' <= c <= 'Z' then (c as int + 32) as char else c
  }

  function Lower(s: string): string
  {
    seq(|s|, i requires 0 <= i < |s| => LowerChar(s[i]))
  }

  /** `_str_to_bool`: true exactly for the spellings of "true" in any letter case; total. */
  function StrToBool(value: string): (b: bool)
    ensures b <==> |value| == 4 && forall i :: 0 <= i < 4 ==> value[i] == "true"[i] || value[i] == "TRUE"[i]
  {
    var lowered := Lower(value);
    assert |value| == 4 && lowered == "true" ==> forall i :: 0 <= i < 4 ==> LowerChar(value[i]) == "true"[i];
    lowered == "true"
  }

  lemma StrToBoolExamples()
    ensures StrToBool("true") && StrToBool("True") && StrToBool("TRUE") && StrToBool("tRuE")
    ensures !StrToBool("") && !StrToBool("1") && !StrToBool("yes") && !StrToBool("false") && !StrToBool("true ")
  {
    assert "tRuE"[1] == 'R';
  }

  /** An absent or empty `--allowed_groups` becomes `None`; a non-empty list is kept. */
  function NormalisedGroups(groups: Option<seq<string>>): (r: Option<seq<string>>)
    ensures r == None <==> groups == None || groups == Some([])
    ensures r != None ==> r == groups
  {
    if groups.Some? && groups.value != [] then groups else None
  }

  /** Normalising the filter never changes which groups it admits. */
  lemma NormalisedGroupsAdmitSame(groups: Option<seq<string>>, name: string)
    ensures Emission.Admits(NormalisedGroups(groups), name) == Emission.Admits(groups, name)
  {
  }

  /** How Python renders the token in an f-string: `None` when it is missing. */
  function TokenText(token: Option<string>): string
  {
    match token
    case None => "None"
    case Some(t) => t
  }

  const AcceptHeader := "application/jupyterhub-pagination+json"

  /** The headers sent with every hub request. */
  function Headers(token: Option<string>): (h: map<string, string>)
    ensures h.Keys == {"Accept", "Authorization"}
    ensures h["Accept"] == AcceptHeader
    ensures |h["Authorization"]| >= 6 && h["Authorization"][..6] == "token "
    ensures h["Authorization"][6..] == TokenText(token)
  {
    var authorization := "token " + TokenText(token);
    assert authorization[6..] == TokenText(token);
    map["Accept" := AcceptHeader, "Authorization" := authorization]
  }

  /** Different token strings give different Authorization headers. */
  lemma HeadersDetermineToken(a: string, b: string)
    requires Headers(Some(a)) == Headers(Some(b))
    ensures a == b
  {
    assert Headers(Some(a))["Authorization"][6..] == a;
  }

  /** A missing token and the token string `None` send the same headers. */
  lemma MissingTokenLooksLikeNone()
    ensures Headers(None) == Headers(Some("None"))
  {
  }

  /** The parsed command line, as much of it as `main` reads. */
  class Args {
    var port: int
    var updateExporterInterval: int
    var allowedGroups: Option<seq<string>>
    var doubleCount: bool
    var hubUrl: string
    var hubServicePrefix: string
    var hubApiToken: Option<string>
    var jupyterhubNamespace: Option<string>
    var jupyterhubMetricsPrefix: string

    constructor (port: int, updateExporterInterval: int, allowedGroups: Option<seq<string>>,
                 doubleCount: bool, hubUrl: string, hubServicePrefix: string,
                 hubApiToken: Option<string>, jupyterhubNamespace: Option<string>,
                 jupyterhubMetricsPrefix: string)
      ensures this.port == port && this.updateExporterInterval == updateExporterInterval
      ensures this.allowedGroups == allowedGroups && this.doubleCount == doubleCount
      ensures this.hubUrl == hubUrl && this.hubServicePrefix == hubServicePrefix
      ensures this.hubApiToken == hubApiToken && this.jupyterhubNamespace == jupyterhubNamespace
      ensures this.jupyterhubMetricsPrefix == jupyterhubMetricsPrefix
    {
      this.port := port;
      this.updateExporterInterval := updateExporterInterval;
      this.allowedGroups := allowedGroups;
      this.doubleCount := doubleCount;
      this.hubUrl := hubUrl;
      this.hubServicePrefix := hubServicePrefix;
      this.hubApiToken := hubApiToken;
      this.jupyterhubNamespace := jupyterhubNamespace;
      this.jupyterhubMetricsPrefix := jupyterhubMetricsPrefix;
    }

    /** `main` replaces an absent or empty filter by `None` and leaves every other argument alone. */
    method NormaliseAllowedGroups()
      modifies this`allowedGroups
      ensures allowedGroups == NormalisedGroups(old(allowedGroups))
    {
      if allowedGroups.Some? && allowedGroups.value != [] {
      } else {
        allowedGroups := None;
      }
    }
  }

  /** `yarl.URL(hub_url)`: the hub address wrapped as a URL. */
  datatype HubUrl = HubUrl(text: string)

  /** The keys `sub_app` writes into the application dictionary. */
  datatype Key =
    | HeadersKey | HubUrlKey | AllowedGroupsKey | DoubleCountKey
    | NamespaceKey | MetricsPrefixKey | UpdateIntervalKey | UserGroupKey
  {
    /** The dictionary key as the source spells it. */
    function Name(): string
    {
      match this
      case HeadersKey => "headers"
      case HubUrlKey => "hub_url"
      case AllowedGroupsKey => "allowed_groups"
      case DoubleCountKey => "double_count"
      case NamespaceKey => "namespace"
      case MetricsPrefixKey => "jupyterhub_metrics_prefix"
      case UpdateIntervalKey => "update_interval"
      case UserGroupKey => "USER_GROUP"
    }
  }

  /** Every key of `Key` is present. */
  predicate HasEveryKey<V>(m: map<Key, V>)
  {
    && HeadersKey in m && HubUrlKey in m && AllowedGroupsKey in m && DoubleCountKey in m
    && NamespaceKey in m && MetricsPrefixKey in m && UpdateIntervalKey in m && UserGroupKey in m
  }

  /** A value stored in the application's settings dictionary. */
  datatype Setting =
    | HeaderMap(headers: map<string, string>)
    | Address(url: HubUrl)
    | GroupFilter(groups: Option<seq<string>>)
    | Flag(flag: bool)
    | Text(text: Option<string>)
    | Prefix(prefix: string)
    | Seconds(seconds: int)
    | UserGroupGauge(gauge: Emission.Gauge)

  /** The request handlers and lifecycle hooks a sub-application can register. */
  datatype Handler = Handle
  datatype Hook = OnStartup | OnCleanup
  datatype Route = Route(verb: string, path: string, handler: Handler)

  /** The mutable part of an `aiohttp` application that `sub_app` touches. */
  class Application {
    var settings: map<Key, Setting>
    var routes: seq<Route>
    var onStartup: seq<Hook>
    var onCleanup: seq<Hook>

    constructor ()
      ensures settings == map[] && routes == [] && onStartup == [] && onCleanup == []
    {
      settings, routes, onStartup, onCleanup := map[], [], [], [];
    }

    /** `app[key] = value`. */
    method Store(key: Key, value: Setting)
      modifies this`settings
      ensures settings == old(settings)[key := value]
    {
      settings := settings[key := value];
    }

    /** `app.router.add_get(path, handler)`. */
    method AddGet(path: string, handler: Handler)
      modifies this`routes
      ensures routes == old(routes) + [Route("GET", path, handler)]
    {
      routes := routes + [Route("GET", path, handler)];
    }

    method AppendStartup(hook: Hook)
      modifies this`onStartup
      ensures onStartup == old(onStartup) + [hook]
    {
      onStartup := onStartup + [hook];
    }

    method AppendCleanup(hook: Hook)
      modifies this`onCleanup
      ensures onCleanup == old(onCleanup) + [hook]
    {
      onCleanup := onCleanup + [hook];
    }
  }

  /**
   * `sub_app`: a fresh application holding each argument under its own key
   * (the hub address wrapped as a URL), the `/` route and the two hooks.
   */
  method SubApp(headers: map<string, string>, hubUrl: string, allowedGroups: Option<seq<string>>,
                doubleCount: bool, namespace: Option<string>, jupyterhubMetricsPrefix: string,
                updateInterval: int, userGroup: Emission.Gauge)
    returns (app: Application)
    ensures fresh(app)
    ensures HasEveryKey(app.settings)
    ensures app.settings[HeadersKey] == HeaderMap(headers)
    ensures app.settings[HubUrlKey] == Address(HubUrl(hubUrl))
    ensures app.settings[AllowedGroupsKey] == GroupFilter(allowedGroups)
    ensures app.settings[DoubleCountKey] == Flag(doubleCount)
    ensures app.settings[NamespaceKey] == Text(namespace)
    ensures app.settings[MetricsPrefixKey] == Prefix(jupyterhubMetricsPrefix)
    ensures app.settings[UpdateIntervalKey] == Seconds(updateInterval)
    ensures app.settings[UserGroupKey] == UserGroupGauge(userGroup)
    ensures app.routes == [Route("GET", "/", Handle)]
    ensures app.onStartup == [OnStartup] && app.onCleanup == [OnCleanup]
  {
    app := new Application();
    app.Store(HeadersKey, HeaderMap(headers));
    app.Store(HubUrlKey, Address(HubUrl(hubUrl)));
    app.Store(AllowedGroupsKey, GroupFilter(allowedGroups));
    app.Store(DoubleCountKey, Flag(doubleCount));
    app.Store(NamespaceKey, Text(namespace));
    app.Store(MetricsPrefixKey, Prefix(jupyterhubMetricsPrefix));
    app.Store(UpdateIntervalKey, Seconds(updateInterval));
    app.Store(UserGroupKey, UserGroupGauge(userGroup));
    app.AddGet("/", Handle);
    app.AppendStartup(OnStartup);
    app.AppendCleanup(OnCleanup);
  }

  /**
   * The part of `main` after argument parsing: normalise the filter, build
   * the headers and create the metrics sub-application from the arguments.
   */
  method MetricsApp(args: Args, userGroup: Emission.Gauge) returns (app: Application)
    modifies args`allowedGroups
    ensures args.allowedGroups == NormalisedGroups(old(args.allowedGroups))
    ensures fresh(app)
    ensures HasEveryKey(app.settings)
    ensures app.settings[HeadersKey] == HeaderMap(Headers(args.hubApiToken))
    ensures app.settings[HubUrlKey] == Address(HubUrl(args.hubUrl))
    ensures app.settings[AllowedGroupsKey] == GroupFilter(NormalisedGroups(old(args.allowedGroups)))
    ensures app.settings[DoubleCountKey] == Flag(args.doubleCount)
    ensures app.settings[NamespaceKey] == Text(args.jupyterhubNamespace)
    ensures app.settings[MetricsPrefixKey] == Prefix(args.jupyterhubMetricsPrefix)
    ensures app.settings[UpdateIntervalKey] == Seconds(args.updateExporterInterval)
    ensures app.settings[UserGroupKey] == UserGroupGauge(userGroup)
    ensures app.routes == [Route("GET", "/", Handle)]
    ensures app.onStartup == [OnStartup] && app.onCleanup == [OnCleanup]
  {
    args.NormaliseAllowedGroups();
    var headers := Headers(args.hubApiToken);
    app := SubApp(headers, args.hubUrl, args.allowedGroups, args.doubleCount, args.jupyterhubNamespace,
                  args.jupyterhubMetricsPrefix, args.updateExporterInterval, userGroup);
  }
}
