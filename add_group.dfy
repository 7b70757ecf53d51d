/**
 * The add_group action component: its configuration section and message
 * channel, and the event handler that resolves an incident's severity label,
 * rewrites the stored incident's owner and then its members, and reports a
 * status line.
 */
module AddGroup {
  import opened Wrappers
  import opened Values
  import opened Policy
  import opened Rest
  import Decimal

  /** The configuration section the component reads its options from. */
  const ConfigDataSection := "addgroup1"
  const ChannelPrefix := "actions."
  const DefaultQueue := "addgroup"
  const IncidentsPrefix := "/incidents/"
  const StatusPrefix := "Finished adding users to incident "
  const StatusSuffix := " due to severity change"

  /** `opts.get(CONFIG_DATA_SECTION, {})`. */
  function SectionOptions(opts: map<string, Options>): Options {
    if ConfigDataSection in opts then opts[ConfigDataSection] else map[]
  }

  /** The queue the component listens on: the configured `queue`, or `addgroup`. */
  function QueueName(options: Options): string {
    if "queue" in options then options["queue"] else DefaultQueue
  }

  function Channel(options: Options): (channel: string)
    ensures |channel| >= |ChannelPrefix| && channel[..|ChannelPrefix|] == ChannelPrefix
  {
    ChannelPrefix + QueueName(options)
  }

  /** The queue name can be read back off the channel, so two components share a channel exactly when they share a queue. */
  lemma ChannelNamesQueue(o1: Options, o2: Options)
    ensures Channel(o1)[|ChannelPrefix|..] == QueueName(o1)
    ensures Channel(o1) == Channel(o2) <==> QueueName(o1) == QueueName(o2)
  {
  }

  /** Without a `queue` option the channel is `actions.addgroup`, the same as configuring that queue explicitly. */
  lemma DefaultChannel(options: Options)
    requires "queue" !in options
    ensures Channel(options) == "actions.addgroup"
    ensures Channel(options) == Channel(options["queue" := DefaultQueue])
  {
  }

  function IncidentPath(id: string): string {
    IncidentsPrefix + id
  }

  function Status(id: string): string {
    StatusPrefix + id + StatusSuffix
  }

  /** The incident id can be read back off the status line and off the resource path. */
  lemma StatusAndPathNameIncident(id: string)
    ensures var s := Status(id);
            |s| == |StatusPrefix| + |id| + |StatusSuffix| && s[|StatusPrefix|..|s| - |StatusSuffix|] == id
    ensures IncidentPath(id)[|IncidentsPrefix|..] == id
  {
  }

  /** Distinct numeric incident ids give distinct status lines and distinct resource paths. */
  lemma NumericIdsDistinguished(a: int, b: int)
    ensures Status(Decimal.IntToString(a)) == Status(Decimal.IntToString(b)) <==> a == b
    ensures IncidentPath(Decimal.IntToString(a)) == IncidentPath(Decimal.IntToString(b)) <==> a == b
  {
    StatusAndPathNameIncident(Decimal.IntToString(a));
    StatusAndPathNameIncident(Decimal.IntToString(b));
    Decimal.IntToStringInjective(a, b);
  }

  /** The status line for incident 1001. */
  lemma StatusExample()
    ensures Status(Decimal.IntToString(1001)) == "Finished adding users to incident 1001 due to severity change"
  {
    assert Decimal.NatToString(100) == "100";
    assert Decimal.IntToString(1001) == "1001";
    assert Status("1001") == "Finished adding users to incident 1001 due to severity change";
  }

  datatype HandlerError =
    | KeyError(key: string)
    | NotADict(key: string)
    | UnrenderableId
    | Remote(cause: RestError)

  /**
   * What the handler reads from the event message before its first remote
   * call: the incident id as `str` renders it and the classified severity.
   * `fieldLabel` is the platform's label lookup for a select field.
   */
  function ReadRequest(message: Record, fieldLabel: (string, Value) -> string): Result<(string, Severity), HandlerError>
  {
    if "incident" !in message then Err(KeyError("incident"))
    else if !message["incident"].Obj? then Err(NotADict("incident"))
    else
      var incident := message["incident"].fields;
      if "id" !in incident then Err(KeyError("id"))
      else if "severity_code" !in incident then Err(KeyError("severity_code"))
      else
        var sev := Classify(fieldLabel("severity_code", incident["severity_code"]));
        match Render(incident["id"])
        case None => Err(UnrenderableId)
        case Some(id) => Ok((id, sev))
  }

  /** The read phase looks at no key of the message but `incident`. */
  lemma ReadRequestIgnoresMessageKeys(message: Record, fieldLabel: (string, Value) -> string, k: string, v: Value)
    requires k != "incident"
    ensures ReadRequest(message[k := v], fieldLabel) == ReadRequest(message, fieldLabel)
  {
  }

  /** Of the incident, the read phase looks at `id` and `severity_code` only. */
  lemma ReadRequestIgnoresIncidentKeys(message: Record, fieldLabel: (string, Value) -> string, k: string, v: Value)
    requires "incident" in message && message["incident"].Obj?
    requires k != "id" && k != "severity_code"
    ensures var incident := message["incident"].fields;
            ReadRequest(message["incident" := Obj(incident[k := v])], fieldLabel) == ReadRequest(message, fieldLabel)
  {
  }

  class AddGroupComponent {
    const options: Options
    const channel: string

    constructor (opts: map<string, Options>)
      ensures options == SectionOptions(opts)
      ensures channel == Channel(options)
    {
      var section := SectionOptions(opts);
      options := section;
      channel := Channel(section);
    }

    /**
     * The `add_group` handler. A malformed message fails before any remote
     * call. Otherwise the owner rewrite is applied to `/incidents/<id>`; if
     * that record is missing the call fails and nothing changes. Then the
     * members rewrite is applied to the same path, and the status line names
     * the incident. The stored record ends up with both rewrites applied, owner
     * first, and exactly two writes were sent.
     */
    method HandleAddGroup(message: Record, fieldLabel: (string, Value) -> string, client: RestClient)
      returns (status: Result<string, HandlerError>)
      modifies client
      ensures ReadRequest(message, fieldLabel).Err? ==>
                && status == Err(ReadRequest(message, fieldLabel).error)
                && client.store == old(client.store) && client.puts == old(client.puts)
      ensures ReadRequest(message, fieldLabel).Ok? ==>
                var (id, sev) := ReadRequest(message, fieldLabel).value;
                var uri := IncidentPath(id);
                if uri !in old(client.store) then
                  && status == Err(Remote(NotFound(uri)))
                  && client.store == old(client.store) && client.puts == old(client.puts)
                else
                  var owned := OwnerUpdate(sev, options, old(client.store)[uri]);
                  var done := MembersUpdate(sev, options, owned);
                  && status == Ok(Status(id))
                  && client.store == old(client.store)[uri := done]
                  && client.puts == old(client.puts) + [Put(uri, owned), Put(uri, done)]
    {
      if "incident" !in message {
        return Err(KeyError("incident"));
      }
      var incident := message["incident"];
      if !incident.Obj? {
        return Err(NotADict("incident"));
      }
      if "id" !in incident.fields {
        return Err(KeyError("id"));
      }
      var incId := incident.fields["id"];
      if "severity_code" !in incident.fields {
        return Err(KeyError("severity_code"));
      }
      var severityLabel := fieldLabel("severity_code", incident.fields["severity_code"]);
      var sev := Classify(severityLabel);

      var id := Render(incId);
      if id.None? {
        return Err(UnrenderableId);
      }
      var uri := IncidentPath(id.value);
      var owned := client.GetPut(uri, UpdateOwner(sev, options));
      if owned.Err? {
        return Err(Remote(owned.error));
      }
      var done := client.GetPut(uri, UpdateMembers(sev, options));
      status := match done
        case Ok(_) => Ok(Status(id.value))
        case Err(e) => Err(Remote(e));
    }
  }
}
