/** Settings parsing of src/config.py: the loaded YAML document is turned
    into records by taking each key's value when present and its default
    otherwise. Values are copied as they are, without type checks, so the
    record fields hold raw values. Reading the YAML file is not modelled:
    the loaded document is the input. */
module Config {
  import opened Common
  import opened Values

  datatype QueryArg = QueryArg(name: Value, value: Value)

  datatype WebhookConfig = WebhookConfig(name: Value, httpMethod: Value, url: Value, queryArgs: seq<QueryArg>, payload: Value)

  datatype Settings = Settings(
    alertChannel: Value,
    alertPollingInterval: Value,
    alertBackoffPollingInterval: Value,
    infoChannels: Value,
    infoPollingInterval: Value,
    timezoneName: Value,
    regionToMonitor: Value,
    analyzerPrompt: Value,
    webhooks: seq<WebhookConfig>,
    firebaseCredentialsPath: Value,
    logLevel: Value)

  /** `field` holds the value stored under `key`, or `default` when the key
      is missing. */
  predicate FromKey(field: Value, d: map<string, Value>, key: string, default: Value)
  {
    if key in d then field == d[key] else field == default
  }

  /** Parses each element of a list with `parse`; every element must be a
      dictionary (any other value has no `get` and raises). */
  function ParseEach<T>(items: seq<Value>, parse: map<string, Value> -> Result<T>): (r: Result<seq<T>>)
    ensures r.Ok? <==> forall i :: 0 <= i < |items| ==> items[i].Dict? && parse(items[i].entries).Ok?
    ensures r.Ok? ==> |r.value| == |items|
    ensures r.Ok? ==> forall i :: 0 <= i < |items| ==> r.value[i] == parse(items[i].entries).value
  {
    if items == [] then Ok([])
    else if !items[0].Dict? then Err("AttributeError")
    else
      match parse(items[0].entries)
      case Err(e) => Err(e)
      case Ok(x) =>
        match ParseEach(items[1..], parse)
        case Err(e) => Err(e)
        case Ok(xs) => Ok([x] + xs)
  }

  /** A list comprehension `[parse(x) for x in v]` whose `parse` calls
      `x.get`. Iterating an empty string or dictionary yields nothing;
      a non-empty one yields strings, which have no `get`; `None`, booleans
      and numbers are not iterable. */
  function ParseDicts<T>(v: Value, parse: map<string, Value> -> Result<T>): (r: Result<seq<T>>)
    ensures r.Ok? <==> (v.List? && ParseEach(v.items, parse).Ok?) || v == Str("") || v == Dict(map[])
    ensures r.Ok? && v.List? ==> r == ParseEach(v.items, parse)
    ensures r.Ok? && !v.List? ==> r.value == []
  {
    match v
    case List(items) => ParseEach(items, parse)
    case Str(s) => if s == "" then Ok([]) else Err("AttributeError")
    case Dict(entries) => if entries == map[] then Ok([]) else Err("AttributeError")
    case _ => Err("TypeError")
  }

  /** `parse_query_arg`: name and value default to the empty string. */
  function ParseQueryArg(arg: map<string, Value>): (q: QueryArg)
    ensures FromKey(q.name, arg, "name", Str(""))
    ensures FromKey(q.value, arg, "value", Str(""))
  {
    QueryArg(Get(arg, "name", Str("")), Get(arg, "value", Str("")))
  }

  /** `parse_webhook`: name, method and url default to the empty string,
      the payload to an empty dictionary, and the query arguments to none;
      present query arguments are parsed one by one, in order. */
  function ParseWebhook(webhook: map<string, Value>): (r: Result<WebhookConfig>)
    ensures r.Ok? <==> ParseDicts(Get(webhook, "query_args", List([])), (a: map<string, Value>) => Ok(ParseQueryArg(a))).Ok?
    ensures r.Ok? ==> && FromKey(r.value.name, webhook, "name", Str(""))
                      && FromKey(r.value.httpMethod, webhook, "method", Str(""))
                      && FromKey(r.value.url, webhook, "url", Str(""))
                      && FromKey(r.value.payload, webhook, "payload", Dict(map[]))
    ensures r.Ok? && "query_args" !in webhook ==> r.value.queryArgs == []
    ensures r.Ok? && "query_args" in webhook && webhook["query_args"].List? ==>
              var args := webhook["query_args"].items;
              |r.value.queryArgs| == |args| &&
              forall i :: 0 <= i < |args| ==> r.value.queryArgs[i] == ParseQueryArg(args[i].entries)
  {
    var queryArgs := ParseDicts(Get(webhook, "query_args", List([])), (a: map<string, Value>) => Ok(ParseQueryArg(a)));
    match queryArgs
    case Err(e) => Err(e)
    case Ok(args) =>
      Ok(WebhookConfig(
        Get(webhook, "name", Str("")),
        Get(webhook, "method", Str("")),
        Get(webhook, "url", Str("")),
        args,
        Get(webhook, "payload", Dict(map[]))))
  }

  /** `parse_settings`: every field is the document's value for its key, or
      its default; the webhooks are parsed one by one, in order. It fails
      when the document is not a dictionary or a webhook cannot be parsed. */
  function ParseSettings(config: Value): (r: Result<Settings>)
    ensures r.Ok? <==> config.Dict? && ParseDicts(Get(config.entries, "webhooks", List([])), ParseWebhook).Ok?
    ensures r.Ok? ==>
              var c := config.entries;
              && FromKey(r.value.alertChannel, c, "alert_channel", Str(""))
              && FromKey(r.value.alertPollingInterval, c, "alert_polling_interval", Int(5))
              && FromKey(r.value.alertBackoffPollingInterval, c, "alert_backoff_polling_interval", Int(60))
              && FromKey(r.value.infoChannels, c, "info_channels", List([]))
              && FromKey(r.value.infoPollingInterval, c, "info_polling_interval", Int(5))
              && FromKey(r.value.timezoneName, c, "timezone_name", Str("Europe/Kyiv"))
              && FromKey(r.value.regionToMonitor, c, "region_to_monitor", Int(14))
              && FromKey(r.value.analyzerPrompt, c, "analyzer_prompt", Str(""))
              && FromKey(r.value.firebaseCredentialsPath, c, "firebase_credentials_path", Str("/etc/pyalerts/account.json"))
              && FromKey(r.value.logLevel, c, "log_level", Str("INFO"))
    ensures r.Ok? && "webhooks" !in config.entries ==> r.value.webhooks == []
    ensures r.Ok? && "webhooks" in config.entries && config.entries["webhooks"].List? ==>
              var hooks := config.entries["webhooks"].items;
              |r.value.webhooks| == |hooks| &&
              forall i :: 0 <= i < |hooks| ==> Ok(r.value.webhooks[i]) == ParseWebhook(hooks[i].entries)
  {
    if !config.Dict? then Err("AttributeError")
    else
      var c := config.entries;
      match ParseDicts(Get(c, "webhooks", List([])), ParseWebhook)
      case Err(e) => Err(e)
      case Ok(webhooks) =>
        Ok(Settings(
          Get(c, "alert_channel", Str("")),
          Get(c, "alert_polling_interval", Int(5)),
          Get(c, "alert_backoff_polling_interval", Int(60)),
          Get(c, "info_channels", List([])),
          Get(c, "info_polling_interval", Int(5)),
          Get(c, "timezone_name", Str("Europe/Kyiv")),
          Get(c, "region_to_monitor", Int(14)),
          Get(c, "analyzer_prompt", Str("")),
          webhooks,
          Get(c, "firebase_credentials_path", Str("/etc/pyalerts/account.json")),
          Get(c, "log_level", Str("INFO"))))
  }

  /** An empty document gives the default settings: no alert channel,
      polling every 5 s (60 s while alerted), no info channels, Kyiv time,
      region 14 (Odesa oblast), no prompt and no webhooks. */
  lemma EmptyDocumentGivesDefaults()
    ensures ParseSettings(Dict(map[])) ==
              Ok(Settings(Str(""), Int(5), Int(60), List([]), Int(5), Str("Europe/Kyiv"), Int(14), Str(""), [],
                          Str("/etc/pyalerts/account.json"), Str("INFO")))
  {
  }
}
