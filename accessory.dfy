/** `HomebridgeAccessory`: the typed, read-only view of one accessory record of
    `GET api/accessories`, and the payload that asks the bridge to flip its power. */
module Accessory {
  import opened Py
  import opened Json

  const UnknownDevice := "Unknown Device"
  const UnknownManufacturer := "Unknown"

  // Keys of an accessory record and of its `accessoryInformation` object.
  const UniqueIdKey := "uniqueId"
  const AidKey := "aid"
  const IidKey := "iid"
  const ServiceNameKey := "serviceName"
  const InfoKey := "accessoryInformation"
  const ValuesKey := "values"
  const ManufacturerKey := "Manufacturer"
  const ModelKey := "Model"
  const OnKey := "On"

  /** The keys `FromRecord` looks at; every other key of a record is ignored. */
  const RecordKeys: set<string> := {UniqueIdKey, AidKey, IidKey, ServiceNameKey, InfoKey, ValuesKey}

  /** The attributes a constructed `HomebridgeAccessory` holds. `Null` stands for
      Python's `None`. The record's values are copied as they are: the type hints of
      the source are not checked at run time. */
  datatype Accessory = Accessory(
    uniqueId: Value,
    aid: Value,
    iid: Value,
    name: Value,
    info: map<string, Value>,
    manufacturer: Value,
    model: Value,
    currentValues: map<string, Value>,
    isOn: bool)

  /** `v` is what `d.get(key, default)` gives: the stored value when `key` is present,
      the default otherwise. */
  predicate Defaulted(d: map<string, Value>, key: string, default: Value, v: Value) {
    (key in d ==> v == d[key]) && (key !in d ==> v == default)
  }

  /** A field that the constructor later calls `.get` on: absent, or an object. */
  predicate MappingOrAbsent(d: map<string, Value>, key: string) {
    key !in d || d[key].Object?
  }

  /** `d.get(key, {})` followed by a call of its `.get`: any non-object raises. */
  function Mapping(d: map<string, Value>, key: string): Result<map<string, Value>> {
    match Get(d, key, Object(map[]))
    case Object(f) => Ok(f)
    case _ => Err(AttributeError)
  }

  /** `bool(on_val) if on_val is not None else False` for `on_val = values.get("On")`. */
  predicate OnState(values: map<string, Value>) {
    var v := Get(values, OnKey, Null);
    if v == Null then false else Truthy(v)
  }

  /** The attributes the constructor derives rather than copies agree with the ones
      they are derived from. */
  predicate Consistent(a: Accessory) {
    && Defaulted(a.info, ManufacturerKey, Str(UnknownManufacturer), a.manufacturer)
    && Defaulted(a.info, ModelKey, Null, a.model)
    && a.isOn == OnState(a.currentValues)
  }

  /** `HomebridgeAccessory(raw_data)`. It fails exactly when `raw_data` is not a dict,
      or its `accessoryInformation` or `values` is present but not a dict (the `.get`
      call on it raises). Otherwise each present field is copied unchanged and each
      absent one takes its default. */
  function FromRecord(raw: Value): (r: Result<Accessory>)
    ensures r.Ok? <==> raw.Object? && MappingOrAbsent(raw.fields, InfoKey) && MappingOrAbsent(raw.fields, ValuesKey)
    ensures r.Err? ==> r.fault == AttributeError
    ensures r.Ok? ==> Consistent(r.value)
    ensures r.Ok? ==>
      && Defaulted(raw.fields, UniqueIdKey, Null, r.value.uniqueId)
      && Defaulted(raw.fields, AidKey, Null, r.value.aid)
      && Defaulted(raw.fields, IidKey, Null, r.value.iid)
      && Defaulted(raw.fields, ServiceNameKey, Str(UnknownDevice), r.value.name)
      && Defaulted(raw.fields, InfoKey, Object(map[]), Object(r.value.info))
      && Defaulted(raw.fields, ValuesKey, Object(map[]), Object(r.value.currentValues))
    ensures r.Ok? ==> (r.value.isOn <==> OnKey in r.value.currentValues && Truthy(r.value.currentValues[OnKey]))
  {
    match raw
    case Object(data) =>
      (match Mapping(data, InfoKey)
       case Err(e) => Err(e)
       case Ok(info) =>
         match Mapping(data, ValuesKey)
         case Err(e) => Err(e)
         case Ok(values) =>
           Ok(Accessory(
             uniqueId := Get(data, UniqueIdKey, Null),
             aid := Get(data, AidKey, Null),
             iid := Get(data, IidKey, Null),
             name := Get(data, ServiceNameKey, Str(UnknownDevice)),
             info := info,
             manufacturer := Get(info, ManufacturerKey, Str(UnknownManufacturer)),
             model := Get(info, ModelKey, Null),
             currentValues := values,
             isOn := OnState(values))))
    case _ => Err(AttributeError)
  }

  /** A record the constructor turns back into `a`: the view loses nothing but the
      keys it ignores. */
  function ToRecord(a: Accessory): (raw: Value)
    requires Consistent(a)
    ensures raw.Object? && raw.fields.Keys == RecordKeys
    ensures FromRecord(raw) == Ok(a)
  {
    Object(map[
      UniqueIdKey := a.uniqueId,
      AidKey := a.aid,
      IidKey := a.iid,
      ServiceNameKey := a.name,
      InfoKey := Object(a.info),
      ValuesKey := Object(a.currentValues)])
  }

  /** Keys other than the six the constructor reads do not change the view. */
  lemma FromRecordIgnoresOtherKeys(fields: map<string, Value>, key: string, v: Value)
    requires key !in RecordKeys
    ensures FromRecord(Object(fields[key := v])) == FromRecord(Object(fields))
  {
    var extended := fields[key := v];
    assert forall k :: k in RecordKeys ==> (k in extended <==> k in fields);
    assert forall k :: k in RecordKeys && k in fields ==> extended[k] == fields[k];
  }

  /** `get_toggle_payload()`: a two-field body asking for the opposite of the state
      the accessory had when it was built. It reads `isOn` and changes nothing. */
  function TogglePayload(a: Accessory): (p: Value)
    ensures p.Object? && p.fields.Keys == {"characteristicType", "value"}
    ensures p.fields["characteristicType"] == Str(OnKey)
    ensures p.fields["value"] == Bool(!a.isOn)
  {
    Object(map["characteristicType" := Str(OnKey), "value" := Bool(!a.isOn)])
  }

  /** The record `raw` with its `values.On` set to `on`, as the bridge reports it once
      it has applied a payload asking for `on`. */
  function WithOn(raw: Value, on: bool): Value
    requires raw.Object?
  {
    var values := match Get(raw.fields, ValuesKey, Object(map[])) case Object(v) => v case _ => map[];
    Object(raw.fields[ValuesKey := Object(values[OnKey := Bool(on)])])
  }

  /** Building the view again from the record after the bridge has applied the toggle
      payload gives the flipped state, and that view's payload asks for the original
      state: payloads alternate only across refreshes, never on one view. */
  lemma RefreshAfterToggle(raw: Value, a: Accessory)
    requires FromRecord(raw) == Ok(a)
    ensures raw.Object?
    ensures var after := FromRecord(WithOn(raw, TogglePayload(a).fields["value"].b));
      && after.Ok?
      && after.value == a.(currentValues := a.currentValues[OnKey := Bool(!a.isOn)], isOn := !a.isOn)
      && TogglePayload(after.value).fields["value"] == Bool(a.isOn)
  {
    var requested := TogglePayload(a).fields["value"].b;
    assert requested == !a.isOn;
    var next := WithOn(raw, requested);
    var nextFields := raw.fields[ValuesKey := Object(a.currentValues[OnKey := Bool(requested)])];
    assert next == Object(nextFields);
    assert forall k :: k in RecordKeys && k != ValuesKey ==> (k in nextFields <==> k in raw.fields);
    assert forall k :: k in RecordKeys && k != ValuesKey && k in raw.fields ==> nextFields[k] == raw.fields[k];
  }
}
