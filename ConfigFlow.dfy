/**
 * The step handlers of config_flow.py: the `ConfigFlow` that adds an
 * instance (`user`, `connection_details`) and the `OptionsFlowHandler` that
 * edits its options (`init`, `domain_entity_filters`, `general_filters`,
 * `events`). The host's flow machinery is reduced to what the handlers
 * decide: the result of a step (a form, a new entry or an abort) and the
 * fields they update.
 */
module ConfigFlow {
  import opened Wrappers
  import opened Text
  import opened Sorting
  import opened Selector
  import opened ConfigOptions
  import opened RestApi

  /** A value of a submitted form or of a stored option. */
  datatype Setting =
    | Word(text: string)
    | Flag(on: bool)
    | Number(n: int)
    | Words(items: seq<string>)
    | FilterList(filters: seq<FilterConf>)

  /** What a step hands back to the host. */
  datatype FlowResult =
    | ShowForm(stepId: string, errors: map<string, string>, choices: seq<SelectOption>, defaults: seq<string>)
    | CreateEntry(title: string, data: map<string, Setting>)
    | Abort(reason: string)

  // Keys and values of the integration's constants module.
  const ConfType: string := "type"
  const ConfRemote: string := "remote"
  const ConfMain: string := "main"
  const RemoteId: string := "remote"
  const ConfFilter: string := "filter"
  const ConfSubscribeEvents: string := "subscribe_events"

  /** The exceptions `validate_input` can raise, as the connection step tells them apart. */
  datatype ValidationError = ApiProblem | CannotConnectError | InvalidAuthError | UnsupportedVersion | EndpointMissing | OtherError

  /** The form error each exception shows. */
  function ErrorCode(e: ValidationError): (code: string)
    ensures code != ""
    ensures e == ApiProblem <==> code == "api_problem"
    ensures e == CannotConnectError <==> code == "cannot_connect"
    ensures e == InvalidAuthError <==> code == "invalid_auth"
    ensures e == UnsupportedVersion <==> code == "unsupported_version"
    ensures e == EndpointMissing <==> code == "missing_endpoint"
    ensures e == OtherError <==> code == "unknown"
  {
    match e
    case ApiProblem => "api_problem"
    case CannotConnectError => "cannot_connect"
    case InvalidAuthError => "invalid_auth"
    case UnsupportedVersion => "unsupported_version"
    case EndpointMissing => "missing_endpoint"
    case OtherError => "unknown"
  }

  /** Different exceptions show different errors. */
  lemma ErrorCodeInjective(a: ValidationError, b: ValidationError)
    ensures ErrorCode(a) == ErrorCode(b) <==> a == b
  {
  }

  /** The title and unique id `validate_input` returns. */
  datatype Instance = Instance(title: Json, uuid: Json)

  /**
   * `validate_input`: the discovery info's location name and uuid, or the
   * exception discovery raised. A missing key is a `KeyError`, which the
   * connection step reports as "unknown".
   */
  function ValidateInput(d: Discovery): (r: Result<Instance, ValidationError>)
    ensures r.Ok? <==> d.result.Ok? && "location_name" in d.result.value && "uuid" in d.result.value
    ensures d.result == Err(InvalidAuth) ==> r == Err(InvalidAuthError)
    ensures d.result == Err(CannotConnect) ==> r == Err(CannotConnectError)
  {
    match d.result
    case Err(InvalidAuth) => Err(InvalidAuthError)
    case Err(CannotConnect) => Err(CannotConnectError)
    case Err(Unexpected) => Err(OtherError)
    case Ok(info) =>
      if "location_name" in info && "uuid" in info then Ok(Instance(info["location_name"], info["uuid"]))
      else Err(OtherError)
  }

  /** The fallback info always validates: it has both keys. */
  lemma FallbackValidates(host: string, port: int, secure: bool, token: string,
                          server: Request -> HttpOutcome, sha256Hex: string -> string)
    requires |GetDiscoveryInfo(host, port, secure, token, server, sha256Hex).requests| == 3
    requires GetDiscoveryInfo(host, port, secure, token, server, sha256Hex).result.Ok?
    ensures ValidateInput(GetDiscoveryInfo(host, port, secure, token, server, sha256Hex)).Ok?
  {
    var d := GetDiscoveryInfo(host, port, secure, token, server, sha256Hex);
    var config := Request(Endpoint(secure, host, port, ConfigPath), Authorization(token));
    var fields := ConfigOutcome(server(config)).fields;
    FallbackInfoFacts(host, port, fields, sha256Hex);
  }

  function Form(stepId: string): FlowResult {
    ShowForm(stepId, map[], [], [])
  }

  // ---------------------------------------------------------------- ConfigFlow

  class InstanceFlow {
    /** The unique ids of the entries the host already holds. */
    const configuredIds: set<string>
    /** The unique id this flow has claimed, if any. */
    var uniqueId: Option<string>

    constructor(configured: set<string>)
      ensures configuredIds == configured && uniqueId == None
    {
      configuredIds, uniqueId := configured, None;
    }

    /** `_abort_if_unique_id_configured` after `async_set_unique_id(id)`, or the entry. */
    method ClaimAndCreate(id: string, title: string, data: map<string, Setting>) returns (r: FlowResult)
      modifies this
      ensures uniqueId == Some(id)
      ensures r == if id in configuredIds then Abort("already_configured") else CreateEntry(title, data)
    {
      uniqueId := Some(id);
      if id in configuredIds {
        return Abort("already_configured");
      }
      return CreateEntry(title, data);
    }

    /**
     * `async_step_user`: choosing the remote role creates the entry under the
     * fixed remote id, choosing the main role goes on to the connection form,
     * and any other choice shows the form again with error "unknown".
     */
    method StepUser(input: Option<map<string, Setting>>) returns (r: FlowResult)
      requires input.Some? ==> ConfType in input.value
      modifies this
      ensures input.None? ==> r == Form("user") && uniqueId == old(uniqueId)
      ensures input.Some? && input.value[ConfType] == Word(ConfRemote) ==>
                uniqueId == Some(RemoteId)
                && r == (if RemoteId in configuredIds then Abort("already_configured") else CreateEntry("Remote instance", input.value))
      ensures input.Some? && input.value[ConfType] == Word(ConfMain) ==>
                r == Form("connection_details") && uniqueId == old(uniqueId)
      ensures input.Some? && input.value[ConfType] != Word(ConfRemote) && input.value[ConfType] != Word(ConfMain) ==>
                r == ShowForm("user", map["base" := "unknown"], [], []) && uniqueId == old(uniqueId)
    {
      if input.Some? {
        var choice := input.value[ConfType];
        if choice == Word(ConfRemote) {
          r := ClaimAndCreate(RemoteId, "Remote instance", input.value);
          return;
        } else if choice == Word(ConfMain) {
          r := StepConnectionDetails(None, Err(OtherError));
          return;
        }
        return ShowForm("user", map["base" := "unknown"], [], []);
      }
      return Form("user");
    }

    /**
     * `async_step_connection_details`. `validation` is what `validate_input`
     * gave for the submitted input: an error shows the form again with the
     * error's code and creates nothing; an instance claims its uuid and
     * becomes an entry titled with its location name, unless an entry with
     * that uuid exists.
     */
    method StepConnectionDetails(input: Option<map<string, Setting>>, validation: Result<Instance, ValidationError>)
      returns (r: FlowResult)
      modifies this
      ensures input.None? ==> r == Form("connection_details") && uniqueId == old(uniqueId)
      ensures input.Some? && validation.Err? ==>
                r == ShowForm("connection_details", map["base" := ErrorCode(validation.error)], [], [])
                && uniqueId == old(uniqueId)
      ensures input.Some? && validation.Ok? ==>
                var id := Display(validation.value.uuid);
                uniqueId == Some(id)
                && r == (if id in configuredIds then Abort("already_configured")
                         else CreateEntry(Display(validation.value.title), input.value))
      ensures r.CreateEntry? ==> input.Some? && validation.Ok?
    {
      if input.Some? {
        match validation
        case Err(e) =>
          return ShowForm("connection_details", map["base" := ErrorCode(e)], [], []);
        case Ok(info) =>
          r := ClaimAndCreate(Display(info.uuid), Display(info.title), input.value);
          return;
      }
      return Form("connection_details");
    }
  }

  // ------------------------------------------------------- OptionsFlowHandler

  /** What the general filters form submits. */
  datatype FiltersInput = FiltersInput(selected: Option<seq<string>>, entityId: Option<string>,
                                       unit: Option<string>, above: Option<string>, below: Option<string>)

  /** What the events form submits. */
  datatype EventsInput = EventsInput(subscribed: Option<seq<string>>, newEvent: Option<string>)

  class OptionsFlow {
    /** The unique id of the entry being edited. */
    const entryUniqueId: string
    /** The stored filters, `options.get("filter", [])`. */
    const entryFilters: seq<FilterConf>
    /** The stored events, `options.get("subscribe_events") or []`. */
    const entryEvents: seq<string>

    /** `self.options`: the options being collected, None before the first step is submitted. */
    var options: Option<map<string, Setting>>
    /** `self.filters`: the filter list the general filters form edits. */
    var filters: Option<seq<FilterConf>>
    /** `self.events`: the event names the events form offers. */
    var events: Option<set<string>>

    constructor(uniqueId: string, storedFilters: seq<FilterConf>, storedEvents: seq<string>)
      ensures entryUniqueId == uniqueId && entryFilters == storedFilters && entryEvents == storedEvents
      ensures options == None && filters == None && events == None
    {
      entryUniqueId, entryFilters, entryEvents := uniqueId, storedFilters, storedEvents;
      options, filters, events := None, None, None;
    }

    /**
     * `async_step_init`: the remote role has no options; a submission is
     * kept as a copy and leads to the domain and entity filters.
     * Showing the form needs the live connection (`remoteAvailable`): the
     * source reads `remote` there even when looking it up failed.
     */
    method StepInit(input: Option<map<string, Setting>>, remoteAvailable: bool) returns (r: FlowResult)
      requires entryUniqueId != RemoteId && input.None? ==> remoteAvailable
      modifies this
      ensures entryUniqueId == RemoteId ==> r == Abort("not_supported") && options == old(options)
      ensures entryUniqueId != RemoteId && input.Some? ==> options == input && r == Form("domain_entity_filters")
      ensures entryUniqueId != RemoteId && input.None? ==> options == old(options) && r == Form("init")
      ensures filters == old(filters) && events == old(events)
    {
      if entryUniqueId == RemoteId {
        return Abort("not_supported");
      }
      if input.Some? {
        options := input;
        r := StepDomainEntityFilters(None);
        return;
      }
      return Form("init");
    }

    /** `async_step_domain_entity_filters`: a submission is merged into the options, later keys winning. */
    method StepDomainEntityFilters(input: Option<map<string, Setting>>) returns (r: FlowResult)
      modifies this
      ensures old(options).Some? && input.Some? ==>
                options == Some(old(options).value + input.value)
                && filters == Some(entryFilters)
                && r == ShowForm("general_filters", map[], PlainOptions(FilterLabels(entryFilters)), FilterLabels(entryFilters))
      ensures !(old(options).Some? && input.Some?) ==>
                options == old(options) && filters == old(filters) && r == Form("domain_entity_filters")
      ensures events == old(events)
    {
      if options.Some? && input.Some? {
        options := Some(options.value + input.value);
        r := StepGeneralFilters(None);
        return;
      }
      return Form("domain_entity_filters");
    }

    /**
     * `async_step_general_filters`. Without an entity id the selected labels
     * become the stored filter list; with one, a filter is appended and its
     * label added to the selection. Submitting needs the form to have been
     * shown first (so `filters` is set) and offers only its own labels.
     */
    method StepGeneralFilters(input: Option<FiltersInput>) returns (r: FlowResult)
      requires input.Some? ==> filters.Some?
      requires input.Some? && input.value.entityId.None? ==>
                 forall l :: l in input.value.selected.GetOr([]) ==> l in FilterLabels(filters.value)
      modifies this
      ensures input.None? ==>
                filters == Some(entryFilters) && options == old(options) && events == old(events)
                && r == ShowForm("general_filters", map[], PlainOptions(FilterLabels(entryFilters)), FilterLabels(entryFilters))
      ensures input.Some? && input.value.entityId.None? ==>
                filters == old(filters) && r.ShowForm? && r.stepId == "events"
                && events == Some(set e | e in entryEvents) && r.defaults == entryEvents
                && StrictlySorted(Selectable(r.choices))
                && (forall e :: e in Selectable(r.choices) <==> e in entryEvents)
                && (forall o :: o in r.choices ==> o.labelText == o.value)
                && options == (if old(options).Some?
                               then Some(old(options).value[ConfFilter := FilterList(PickFilters(old(filters).value, input.value.selected.GetOr([])))])
                               else old(options))
      ensures input.Some? && input.value.entityId.Some? ==>
                var added := FilterConf(input.value.entityId, input.value.unit, input.value.above, input.value.below);
                filters == Some(old(filters).value + [added]) && options == old(options) && events == old(events)
                && r == ShowForm("general_filters", map[], PlainOptions(FilterLabels(filters.value)),
                                 input.value.selected.GetOr([]) + [FilterStr(|old(filters).value|, added)])
                && FilterIndex(r.defaults[|r.defaults| - 1]) == Some(|filters.value| - 1)
    {
      if input.Some? {
        var submitted := input.value;
        if submitted.entityId.None? {
          var picked := PickFilters(filters.value, submitted.selected.GetOr([]));
          if options.Some? {
            options := Some(options.value[ConfFilter := FilterList(picked)]);
          }
          r := StepEvents(None);
          return;
        }
        var added := FilterConf(submitted.entityId, submitted.unit, submitted.above, submitted.below);
        var selected := submitted.selected.GetOr([]) + [FilterStr(|filters.value|, added)];
        FilterIndexOfFilterStr(|filters.value|, added);
        filters := Some(filters.value + [added]);
        var strings := FilterLabels(filters.value);
        return ShowForm("general_filters", map[], PlainOptions(strings), selected);
      }
      filters := Some(entryFilters);
      var strings := FilterLabels(entryFilters);
      return ShowForm("general_filters", map[], PlainOptions(strings), strings);
    }

    /**
     * `async_step_events`. Without a new event the submitted list becomes
     * the subscribed events and the flow ends with the collected options;
     * with one, it joins the offered events and the selection. The events
     * are always offered in ascending order, each its own label.
     */
    method StepEvents(input: Option<EventsInput>) returns (r: FlowResult)
      requires input.Some? && input.value.newEvent.None? ==> options.Some?
      modifies this
      ensures input.Some? && input.value.newEvent.None? ==>
                options == Some(old(options).value[ConfSubscribeEvents := Words(input.value.subscribed.GetOr([]))])
                && r == CreateEntry("", options.value) && events == old(events)
      ensures input.Some? && input.value.newEvent.Some? ==>
                options == old(options)
                && events == Some(old(events).GetOr({}) + {input.value.newEvent.value})
                && r.ShowForm? && r.defaults == input.value.subscribed.GetOr([]) + [input.value.newEvent.value]
      ensures input.None? ==>
                options == old(options)
                && events == Some(set e | e in entryEvents)
                && r.ShowForm? && r.defaults == entryEvents
      ensures r.ShowForm? ==>
                r.stepId == "events" && events.Some?
                && StrictlySorted(Selectable(r.choices))
                && (forall e :: e in Selectable(r.choices) <==> e in events.value)
                && (forall o :: o in r.choices ==> o.labelText == o.value)
      ensures filters == old(filters)
    {
      var selected: seq<string>;
      if input.Some? {
        var submitted := input.value;
        if submitted.newEvent.None? {
          options := Some(options.value[ConfSubscribeEvents := Words(submitted.subscribed.GetOr([]))]);
          return CreateEntry("", options.value);
        }
        var event := submitted.newEvent.value;
        var known := if events.None? then {} else events.value;
        events := Some(known + {event});
        selected := submitted.subscribed.GetOr([]) + [event];
      } else {
        events := Some(set e | e in entryEvents);
        selected := entryEvents;
      }
      var names := SortedElements(events.value);
      PlainOptionsFacts(names);
      return ShowForm("events", map[], PlainOptions(names), selected);
    }
  }
}
