/**
 * Event shaping of the overseer: the data map of an event (its fields under
 * lower-camel-case names, without the embedded base event), its supervisor,
 * the broadcast record built from both, and the process-wide overseer
 * instance that the first setup call creates.
 */
module Overseer {
  import opened Common

  newtype byte = x: int | 0 <= x < 256

  /** The UTF-8 bytes of U+FFFD, what strings.ToLower writes for a byte that is not valid UTF-8. */
  const ReplacementChar: seq<byte> := [0xEF, 0xBF, 0xBD]

  /**
   * toCamelCase: lower-case the first byte as strings.ToLower does for a
   * one-byte string, keep the rest. A first byte at or above 0x80 does not
   * start a valid one-byte encoding and turns into U+FFFD.
   */
  function ToCamelCase(s: seq<byte>): (r: seq<byte>)
    ensures s == [] ==> r == []
    ensures s != [] && s[0] < 0x80 ==> |r| == |s| && r[1..] == s[1..]
    ensures s != [] && s[0] < 0x80 ==> r[0] == if 'A' as byte <= s[0] <= 'Z' as byte then s[0] + 32 else s[0]
    ensures s != [] && s[0] >= 0x80 ==> r == ReplacementChar + s[1..]
  {
    if |s| == 0 then s
    else if 'A' as byte <= s[0] <= 'Z' as byte then [s[0] + 32] + s[1..]
    else if s[0] < 0x80 then s
    else ReplacementChar + s[1..]
  }

  /** On names that start with an ASCII byte, applying it twice is applying it once. */
  lemma ToCamelCaseIdempotent(s: seq<byte>)
    requires s == [] || s[0] < 0x80
    ensures ToCamelCase(ToCamelCase(s)) == ToCamelCase(s)
  {
  }

  /** The name of the embedded field every event carries: "BaseEvent". */
  const BaseEventName: seq<byte> := [0x42, 0x61, 0x73, 0x65, 0x45, 0x76, 0x65, 0x6E, 0x74]

  /** A field of an event struct; `value` stands for its value, kept as its JSON text. */
  datatype EventField = EventField(name: seq<byte>, exported: bool, value: string)

  /** An event: its struct fields, and what its Supervisor method returns if it has one. */
  datatype Event = Event(fields: seq<EventField>, supervisorMethod: Option<string>)

  /** Whether field i is copied into the data map. */
  predicate Included(fs: seq<EventField>, i: int)
    requires 0 <= i < |fs|
  {
    fs[i].name != BaseEventName
  }

  /** No included field among i+1 .. n-1 has the same key as field i. */
  predicate LastWithKey(fs: seq<EventField>, i: int, n: int)
    requires 0 <= i < |fs| && n <= |fs|
  {
    forall j :: i < j < n && Included(fs, j) ==> ToCamelCase(fs[j].name) != ToCamelCase(fs[i].name)
  }

  /**
   * extractEventData. Reading an unexported field through Interface()
   * panics; that outcome is None. When two field names lower-case to the
   * same key, the later field wins.
   */
  method ExtractEventData(evt: Event) returns (data: Option<map<seq<byte>, string>>)
    ensures data.None? <==> exists i :: 0 <= i < |evt.fields| && Included(evt.fields, i) && !evt.fields[i].exported
    ensures data.Some? ==> data.value.Keys == set i | 0 <= i < |evt.fields| && Included(evt.fields, i) :: ToCamelCase(evt.fields[i].name)
    ensures data.Some? ==> forall i :: 0 <= i < |evt.fields| && Included(evt.fields, i) && LastWithKey(evt.fields, i, |evt.fields|) ==>
              data.value[ToCamelCase(evt.fields[i].name)] == evt.fields[i].value
  {
    var fs := evt.fields;
    var m: map<seq<byte>, string> := map[];
    for i := 0 to |fs|
      invariant forall j :: 0 <= j < i && Included(fs, j) ==> fs[j].exported
      invariant m.Keys == set j | 0 <= j < i && Included(fs, j) :: ToCamelCase(fs[j].name)
      invariant forall j :: 0 <= j < i && Included(fs, j) && LastWithKey(fs, j, i) ==> m[ToCamelCase(fs[j].name)] == fs[j].value
    {
      var field := fs[i];
      if field.name == BaseEventName {
        continue;
      }
      if !field.exported {
        return None;
      }
      m := m[ToCamelCase(field.name) := field.value];
    }
    return Some(m);
  }

  /** getSupervisor: the event's supervisor, or "" for an event without that method. */
  function GetSupervisor(evt: Event): (r: string)
    ensures evt.supervisorMethod.None? ==> r == ""
    ensures evt.supervisorMethod.Some? ==> r == evt.supervisorMethod.value
  {
    match evt.supervisorMethod
    case None => ""
    case Some(s) => s
  }

  /** The record createBroadcastMessage encodes as JSON. */
  datatype BroadcastEvent = BroadcastEvent(eventType: string, supervisor: string, timestamp: int, data: map<seq<byte>, string>)

  /** createBroadcastMessage, with the clock's Unix time given as `now`; None when the data extraction panics. */
  method CreateBroadcastMessage(eventType: string, evt: Event, now: int) returns (msg: Option<BroadcastEvent>)
    ensures msg.None? <==> exists i :: 0 <= i < |evt.fields| && Included(evt.fields, i) && !evt.fields[i].exported
    ensures msg.Some? ==> msg.value.eventType == eventType && msg.value.supervisor == GetSupervisor(evt) && msg.value.timestamp == now
    ensures msg.Some? ==> msg.value.data.Keys == set i | 0 <= i < |evt.fields| && Included(evt.fields, i) :: ToCamelCase(evt.fields[i].name)
    ensures msg.Some? ==> forall i :: 0 <= i < |evt.fields| && Included(evt.fields, i) && LastWithKey(evt.fields, i, |evt.fields|) ==>
              msg.value.data[ToCamelCase(evt.fields[i].name)] == evt.fields[i].value
  {
    var supervisor := GetSupervisor(evt);
    var data := ExtractEventData(evt);
    if data.None? {
      return None;
    }
    return Some(BroadcastEvent(eventType, supervisor, now, data.value));
  }

  /** The address of the overseer's API client, fixed in the code. */
  const ApiUrl := "http://192.168.1.209:8090"

  /** The overseer; `ws` and `sm` identify the websocket server and the supervisor manager it was given. */
  class Instance {
    const ws: nat
    const sm: nat
    const apiUrl: string

    constructor (ws: nat, sm: nat)
      ensures this.ws == ws && this.sm == sm && apiUrl == ApiUrl
    {
      this.ws := ws;
      this.sm := sm;
      apiUrl := ApiUrl;
    }
  }

  /** The package-level `instance` variable with its sync.Once. */
  class Singleton {
    var instance: Option<Instance>

    constructor ()
      ensures instance == None
    {
      instance := None;
    }

    /** Setup: only the first call creates the instance; every call returns it and no error. */
    method Setup(ws: nat, sm: nat) returns (o: Instance, err: Option<string>)
      modifies this
      ensures err == None
      ensures old(instance).Some? ==> instance == old(instance) && o == old(instance).value
      ensures old(instance).None? ==> fresh(o) && o.ws == ws && o.sm == sm && o.apiUrl == ApiUrl && instance == Some(o)
    {
      if instance.None? {
        var created := new Instance(ws, sm);
        instance := Some(created);
      }
      return instance.value, None;
    }

    /** GetInstance: nil before the first Setup. */
    method GetInstance() returns (o: Option<Instance>)
      ensures o == instance
    {
      return instance;
    }
  }

  /** Two setups in a row give the same instance, built from the first call's arguments. */
  method FirstSetupWins(s: Singleton, ws1: nat, sm1: nat, ws2: nat, sm2: nat) returns (o1: Instance, o2: Instance)
    requires s.instance.None?
    modifies s
    ensures o1 == o2 && o2.ws == ws1 && o2.sm == sm1
  {
    var err;
    o1, err := s.Setup(ws1, sm1);
    o2, err := s.Setup(ws2, sm2);
  }
}
