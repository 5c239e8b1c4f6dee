/** What `attach` decides for one endpoint, before it touches anything. */
module AccessPlan {
  import opened Wrappers
  import opened Widths
  import opened LocalPreferences
  import opened Forwarding

  const LOCALHOST: string := "127.0.0.1"

  datatype Endpoint = Endpoint(name: string, protocol: string)

  /** One listener to put in place: the record to save, and the active rule it may displace. */
  datatype Job = Job(record: Record, protocol: string, matches: bool, displaced: Option<(string, ForwardingRule)>)

  datatype Plan = Plan(job: Job, reserved: set<U16>)

  /** The reserved ports, less those this entry holds itself. */
  function Released(reserved: set<U16>, record: Option<Record>, displaced: Option<(string, ForwardingRule)>): set<U16> {
    reserved
    - (if record.Some? then {record.value.port} else {})
    - (if displaced.Some? then {displaced.value.1.port} else {})
  }

  /** The port a caller gets: the one asked for, else the saved one, else a free one. */
  function SelectPort(wanted: Option<U16>, record: Option<Record>, free: Option<U16>): Option<U16> {
    if wanted.Some? then wanted
    else if record.Some? then Some(record.value.port)
    else free
  }

  predicate OwnsPort(displaced: Option<(string, ForwardingRule)>, port: U16) {
    displaced.Some? && displaced.value.1.host == LOCALHOST && displaced.value.1.port == port
  }

  /**
   * `free` is what `allocate_free_local_port` would return and `bindable` whether the operating
   * system lets the selected port be bound.
   */
  function PlanEndpoint(prefs: seq<Record>, reserved: set<U16>, displaced: Option<(string, ForwardingRule)>,
                        id: Identity, protocol: string, wanted: Option<U16>, free: Option<U16>, bindable: bool)
    : Result<Plan>
  {
    var existing := Find(prefs, id);
    var remaining := Released(reserved, existing, displaced);
    var selected := SelectPort(wanted, existing, free);
    if selected.None? then Err
    else
      var port := selected.value;
      var source := if wanted.Some? then User else if existing.Some? then existing.value.source else Auto;
      var owns := OwnsPort(displaced, port);
      var matches := owns && displaced.value.1.protocol == Some(protocol);
      var record := Record(id, LOCALHOST, port, source);
      if !owns && (port in remaining || !bindable) then Err
      else if !CanUpsert(prefs, record) then Err
      else Ok(Plan(Job(record, protocol, matches, displaced), remaining))
  }

  lemma PlanFits(prefs: seq<Record>, reserved: set<U16>, displaced: Option<(string, ForwardingRule)>,
                 id: Identity, protocol: string, wanted: Option<U16>, free: Option<U16>, bindable: bool)
    ensures var planned := PlanEndpoint(prefs, reserved, displaced, id, protocol, wanted, free, bindable);
            planned.Ok? ==>
              var job := planned.value.job;
              job.record.id == id && job.record.host == LOCALHOST && job.protocol == protocol
              && CanUpsert(prefs, job.record) && job.displaced == displaced
              && (job.matches ==> displaced.Some? && OwnsPort(displaced, job.record.port)
                                  && displaced.value.1.protocol == Some(protocol))
  {
  }
}
