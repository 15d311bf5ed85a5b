/**
  Reshaping of the controller's device list into typed device records.

  Each element of the `tailf-ncs:device` array becomes a record with its name,
  address and authentication group (empty text when missing) and at most one
  device type: the first of `cli`, `netconf`, `generic` present under the
  element's `device-type` member, with that sub-object's `ned-id`.
*/
module Devices {
  import opened Wrappers
  import opened Json

  /** The device types the gateway reports, in priority order. */
  const AllowedTypes: seq<string> := ["cli", "netconf", "generic"]

  /** The member of the controller's answer that holds the device array. */
  const DeviceListKey: string := "tailf-ncs:device"

  datatype DeviceType = DeviceType(nedId: string, nedType: string)

  datatype Device = Device(name: string, address: string, authgroup: string, deviceType: Option<DeviceType>)

  /** The element has a `device-type.<t>` member. */
  predicate HasType(el: Value, t: string) {
    GetPath(el, ["device-type", t]).Some?
  }

  /** The text of `device-type.<t>.ned-id`. */
  function NedIdOf(el: Value, t: string): string {
    Text(GetPath(el, ["device-type", t, "ned-id"]))
  }

  /** The first of `types` the element has, with its NED id. */
  function FirstPresent(el: Value, types: seq<string>): (r: Option<DeviceType>)
    ensures r.None? <==> forall i :: 0 <= i < |types| ==> !HasType(el, types[i])
    ensures r.Some? ==> r.value.nedType in types && HasType(el, r.value.nedType)
                        && r.value.nedId == NedIdOf(el, r.value.nedType)
    ensures r.Some? ==> exists k :: 0 <= k < |types| && types[k] == r.value.nedType
                                    && forall j :: 0 <= j < k ==> !HasType(el, types[j])
  {
    if types == [] then None
    else if HasType(el, types[0]) then Some(DeviceType(NedIdOf(el, types[0]), types[0]))
    else FirstPresent(el, types[1..])
  }

  /** The device type of one element. */
  function TypeOf(el: Value): Option<DeviceType> {
    FirstPresent(el, AllowedTypes)
  }

  /** The record for one element of the device array. */
  function DeviceOf(el: Value): Device {
    Device(Text(Get(el, "name")), Text(Get(el, "address")), Text(Get(el, "authgroup")), TypeOf(el))
  }

  /** The records for a list of elements, one per element, in order. */
  function DevicesFrom(els: seq<Value>): (r: seq<Device>)
    ensures |r| == |els|
    ensures forall i :: 0 <= i < |els| ==> r[i] == DeviceOf(els[i])
  {
    if els == [] then [] else [DeviceOf(els[0])] + DevicesFrom(els[1..])
  }

  /** The device list of a controller answer. */
  function DevicesOf(doc: Value): seq<Device> {
    DevicesFrom(Elements(Get(doc, DeviceListKey)))
  }

  /** The type is chosen by strict priority: `cli` whatever else is present, then
      `netconf`, then `generic`, and no type at all when none is present. */
  lemma TypePriority(el: Value)
    ensures HasType(el, "cli") ==> TypeOf(el) == Some(DeviceType(NedIdOf(el, "cli"), "cli"))
    ensures !HasType(el, "cli") && HasType(el, "netconf") ==>
              TypeOf(el) == Some(DeviceType(NedIdOf(el, "netconf"), "netconf"))
    ensures !HasType(el, "cli") && !HasType(el, "netconf") && HasType(el, "generic") ==>
              TypeOf(el) == Some(DeviceType(NedIdOf(el, "generic"), "generic"))
    ensures TypeOf(el).None? <==> !HasType(el, "cli") && !HasType(el, "netconf") && !HasType(el, "generic")
  {
    var afterCli, afterNetconf: seq<string> := ["netconf", "generic"], ["generic"];
    assert AllowedTypes[0] == "cli" && AllowedTypes[1..] == afterCli;
    assert afterCli[0] == "netconf" && afterCli[1..] == afterNetconf;
    assert afterNetconf[0] == "generic" && afterNetconf[1..] == [];
    assert !HasType(el, "cli") ==> TypeOf(el) == FirstPresent(el, afterCli);
    assert !HasType(el, "netconf") ==> FirstPresent(el, afterCli) == FirstPresent(el, afterNetconf);
  }

  /** The reported NED id is the `ned-id` of the very sub-object that decided the type. */
  lemma NedIdOfWinningType(el: Value)
    requires TypeOf(el).Some?
    ensures GetPath(el, ["device-type", TypeOf(el).value.nedType]).Some?
    ensures TypeOf(el).value.nedId ==
              Text(Get(GetPath(el, ["device-type", TypeOf(el).value.nedType]).value, "ned-id"))
  {
    var t := TypeOf(el).value.nedType;
    GetPathSnoc(el, ["device-type", t], "ned-id");
    assert ["device-type", t] + ["ned-id"] == ["device-type", t, "ned-id"];
  }

  /** No device array (or a null one) gives an empty list, not an error. */
  lemma MissingListIsEmpty(doc: Value)
    requires Get(doc, DeviceListKey).None? || Get(doc, DeviceListKey) == Some(JNull)
    ensures DevicesOf(doc) == []
  {
  }

  /** The gateway's device-type scan: try each allowed type in order, stop at the first present. */
  method SelectType(el: Value) returns (t: Option<DeviceType>)
    ensures t == TypeOf(el)
  {
    t := None;
    for i := 0 to |AllowedTypes|
      invariant t == None
      invariant FirstPresent(el, AllowedTypes[i..]) == TypeOf(el)
    {
      assert AllowedTypes[i..][1..] == AllowedTypes[i + 1..];
      var allowedType := AllowedTypes[i];
      if GetPath(el, ["device-type", allowedType]).Some? {
        t := Some(DeviceType(Text(GetPath(el, ["device-type", allowedType, "ned-id"])), allowedType));
        break;
      }
    }
  }

  /** The gateway's reshaping loop: one record per array element, appended in order. */
  method Reshape(doc: Value) returns (devices: seq<Device>)
    ensures devices == DevicesOf(doc)
  {
    var result := Elements(Get(doc, DeviceListKey));
    devices := [];
    for i := 0 to |result|
      invariant |devices| == i
      invariant forall k :: 0 <= k < i ==> devices[k] == DeviceOf(result[k])
    {
      var deviceJson := result[i];
      var device := Device(Text(Get(deviceJson, "name")), Text(Get(deviceJson, "address")),
                           Text(Get(deviceJson, "authgroup")), None);
      var deviceType := SelectType(deviceJson);
      device := device.(deviceType := deviceType);
      devices := devices + [device];
    }
  }

  /** Two devices, one `cli` and one `netconf`: two records in the same order,
      each with its own type and NED id. */
  lemma TwoDeviceScenario()
    ensures DevicesOf(TwoDevices()) ==
      [ Device("ios-0", "10.0.0.1", "default", Some(DeviceType("cisco-ios-cli-3.0", "cli"))),
        Device("nx-0", "10.0.0.2", "default", Some(DeviceType("cisco-nx-netconf", "netconf"))) ]
  {
    var els := [IosDevice(), NxDevice()];
    assert Get(TwoDevices(), DeviceListKey) == Some(JArray(els));
    assert DevicesOf(TwoDevices()) == DevicesFrom(els);
    IosRecord();
    NxRecord();
    assert DevicesFrom(els)[0] == DeviceOf(IosDevice());
    assert DevicesFrom(els)[1] == DeviceOf(NxDevice());
  }

  lemma IosRecord()
    ensures DeviceOf(IosDevice()) == Device("ios-0", "10.0.0.1", "default", Some(DeviceType("cisco-ios-cli-3.0", "cli")))
  {
    IosFields();
    IosType();
    RecordFields(IosDevice(), "ios-0", "10.0.0.1", "default", Some(DeviceType("cisco-ios-cli-3.0", "cli")));
  }

  lemma IosFields()
    ensures Text(Get(IosDevice(), "name")) == "ios-0"
    ensures Text(Get(IosDevice(), "address")) == "10.0.0.1"
    ensures Text(Get(IosDevice(), "authgroup")) == "default"
  {
    var el := IosDevice();
    assert Get(el, "name") == Some(JString("ios-0"));
    assert Get(el, "address") == Some(JString("10.0.0.1"));
    assert Get(el, "authgroup") == Some(JString("default"));
    TextOfString("ios-0");
    TextOfString("10.0.0.1");
    TextOfString("default");
  }

  lemma IosType()
    ensures TypeOf(IosDevice()) == Some(DeviceType("cisco-ios-cli-3.0", "cli"))
  {
    var el := IosDevice();
    var types := JObject([("cli", JObject([("ned-id", JString("cisco-ios-cli-3.0"))]))]);
    assert Get(el, "device-type") == Some(types);
    assert GetPath(el, ["device-type", "cli"]) == GetPath(types, ["cli"]);
    assert GetPath(el, ["device-type", "cli", "ned-id"]) == GetPath(types, ["cli", "ned-id"]);
    assert HasType(el, "cli");
    assert NedIdOf(el, "cli") == "cisco-ios-cli-3.0";
    assert AllowedTypes[0] == "cli";
  }

  lemma NxRecord()
    ensures DeviceOf(NxDevice()) == Device("nx-0", "10.0.0.2", "default", Some(DeviceType("cisco-nx-netconf", "netconf")))
  {
    NxFields();
    NxType();
    RecordFields(NxDevice(), "nx-0", "10.0.0.2", "default", Some(DeviceType("cisco-nx-netconf", "netconf")));
  }

  lemma NxFields()
    ensures Text(Get(NxDevice(), "name")) == "nx-0"
    ensures Text(Get(NxDevice(), "address")) == "10.0.0.2"
    ensures Text(Get(NxDevice(), "authgroup")) == "default"
  {
    var el := NxDevice();
    assert Get(el, "name") == Some(JString("nx-0"));
    assert Get(el, "address") == Some(JString("10.0.0.2"));
    assert Get(el, "authgroup") == Some(JString("default"));
    TextOfString("nx-0");
    TextOfString("10.0.0.2");
    TextOfString("default");
  }

  lemma NxType()
    ensures TypeOf(NxDevice()) == Some(DeviceType("cisco-nx-netconf", "netconf"))
  {
    var el := NxDevice();
    var types := JObject([("netconf", JObject([("ned-id", JString("cisco-nx-netconf"))]))]);
    assert Get(el, "device-type") == Some(types);
    assert Get(types, "cli") == None;
    assert GetPath(types, ["cli"]) == None;
    assert GetPath(el, ["device-type", "cli"]) == GetPath(types, ["cli"]);
    assert !HasType(el, "cli");
    assert GetPath(el, ["device-type", "netconf"]) == GetPath(types, ["netconf"]);
    assert GetPath(el, ["device-type", "netconf", "ned-id"]) == GetPath(types, ["netconf", "ned-id"]);
    assert HasType(el, "netconf");
    assert NedIdOf(el, "netconf") == "cisco-nx-netconf";
    var afterCli: seq<string> := ["netconf", "generic"];
    assert AllowedTypes[0] == "cli" && AllowedTypes[1..] == afterCli;
    assert TypeOf(el) == FirstPresent(el, afterCli);
    assert afterCli[0] == "netconf";
  }

  lemma RecordFields(el: Value, name: string, address: string, authgroup: string, t: Option<DeviceType>)
    requires Text(Get(el, "name")) == name && Text(Get(el, "address")) == address
    requires Text(Get(el, "authgroup")) == authgroup && TypeOf(el) == t
    ensures DeviceOf(el) == Device(name, address, authgroup, t)
  {
  }

  function IosDevice(): Value {
    JObject([("name", JString("ios-0")), ("address", JString("10.0.0.1")), ("authgroup", JString("default")),
             ("device-type", JObject([("cli", JObject([("ned-id", JString("cisco-ios-cli-3.0"))]))]))])
  }

  function NxDevice(): Value {
    JObject([("name", JString("nx-0")), ("address", JString("10.0.0.2")), ("authgroup", JString("default")),
             ("device-type", JObject([("netconf", JObject([("ned-id", JString("cisco-nx-netconf"))]))]))])
  }

  function TwoDevices(): Value {
    JObject([(DeviceListKey, JArray([IosDevice(), NxDevice()]))])
  }
}
