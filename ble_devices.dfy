/** The Bluetooth vocabulary of `LedBleManager` and its pure device logic:
    the target UUIDs, peripherals as the manager sees them, the name-pattern
    filter (`isTargetDevice`) and the admission rule for scan results. */
module BleDevices {
  import opened Wrappers

  /** A 128-bit Bluetooth UUID. */
  type Uuid = nat

  /** The 16-bit UUIDs 0xFFF0 (service) and 0xFFF3 (write characteristic)
      expanded on the Bluetooth Base UUID. */
  const ServiceUuid: Uuid := 0x0000fff0_0000_1000_8000_00805f9b34fb
  const WriteCharacteristicUuid: Uuid := 0x0000fff3_0000_1000_8000_00805f9b34fb

  /** `CBManagerState` of the central. */
  datatype CentralState = Unknown | Resetting | Unsupported | Unauthorized | PoweredOff | PoweredOn

  /** `CBPeripheralState`. */
  datatype PeripheralState = Disconnected | Connecting | Connected | Disconnecting

  /** A peripheral handle: its stable identifier and its name, if it has one. */
  datatype Peripheral = Peripheral(id: Uuid, name: Option<string>)

  /** `LedBleManager.DiscoveredDevice`. */
  datatype DiscoveredDevice = DiscoveredDevice(id: Uuid, name: string, peripheral: Peripheral)

  /** The display name given to a peripheral without a name ("unknown device"). */
  const UnknownDeviceName: string := "Bilinmeyen Cihaz"

  /** The product's known device-name fragments. */
  const DeviceNamePatterns: seq<string> := ["ELK-BLEDOM", "Lotus", "LED", "BLEDOM", "BLE", "RGB", "Light", "Lamp", "MELK"]

  /** ASCII lower-casing, standing in for the locale-aware case folding of
      `localizedCaseInsensitiveContains`. */
  function LowerChar(c: char): char {
    if 'A' <= c <= 'Z' then (c as int + 32) as char else c
  }

  function Lower(s: string): (t: string)
    ensures |t| == |s|
    ensures forall i :: 0 <= i < |s| ==> t[i] == LowerChar(s[i])
  {
    seq(|s|, i requires 0 <= i < |s| => LowerChar(s[i]))
  }

  /** Substring search: `p` occurs in `s` at the front or further on. */
  predicate Contains(s: string, p: string)
    decreases |s|
  {
    (|p| <= |s| && s[..|p|] == p) || (|s| > 0 && Contains(s[1..], p))
  }

  /** `p` occurs in `s` starting at index `i`. */
  predicate OccursAt(s: string, p: string, i: int) {
    0 <= i && i + |p| <= |s| && s[i..i + |p|] == p
  }

  /** The search agrees with "`p` occurs somewhere in `s`". */
  lemma {:induction false} ContainsIffOccurs(s: string, p: string)
    decreases |s|
    ensures Contains(s, p) <==> exists i :: OccursAt(s, p, i)
  {
    if |s| > 0 {
      ContainsIffOccurs(s[1..], p);
      if |p| <= |s| && s[..|p|] == p {
        assert OccursAt(s, p, 0);
      }
      if Contains(s[1..], p) {
        var i :| OccursAt(s[1..], p, i);
        assert OccursAt(s, p, i + 1);
      }
      if exists i :: OccursAt(s, p, i) {
        var i :| OccursAt(s, p, i);
        if i > 0 {
          assert OccursAt(s[1..], p, i - 1);
        } else {
          assert s[..|p|] == s[i..i + |p|];
        }
      }
    } else if |p| == 0 {
      assert OccursAt(s, p, 0);
    }
  }

  /** A pattern with a character the text lacks cannot occur in it. */
  lemma MissingCharRefutes(s: string, p: string, c: char)
    requires c in p && c !in s
    ensures !Contains(s, p)
  {
    var k :| 0 <= k < |p| && p[k] == c;
    forall i | 0 <= i && i + |p| <= |s|
      ensures !OccursAt(s, p, i)
    {
      assert s[i..i + |p|][k] in s;
    }
    ContainsIffOccurs(s, p);
  }

  predicate ContainsIgnoringCase(s: string, p: string) {
    Contains(Lower(s), Lower(p))
  }

  /** Some pattern of `patterns` occurs in `name`, ignoring case. */
  predicate MatchesAnyPattern(name: string, patterns: seq<string>) {
    |patterns| > 0 && (ContainsIgnoringCase(name, patterns[0]) || MatchesAnyPattern(name, patterns[1..]))
  }

  lemma {:induction false} MatchesAnyPatternIff(name: string, patterns: seq<string>)
    ensures MatchesAnyPattern(name, patterns) <==>
      exists k :: 0 <= k < |patterns| && ContainsIgnoringCase(name, patterns[k])
  {
    if |patterns| > 0 {
      MatchesAnyPatternIff(name, patterns[1..]);
      if exists k :: 0 <= k < |patterns| && ContainsIgnoringCase(name, patterns[k]) {
        var k :| 0 <= k < |patterns| && ContainsIgnoringCase(name, patterns[k]);
        if k > 0 {
          assert patterns[1..][k - 1] == patterns[k];
        }
      }
    }
  }

  /** `isTargetDevice`: a peripheral without a name never matches. */
  predicate IsTargetDevice(name: Option<string>) {
    name.Some? && MatchesAnyPattern(name.value, DeviceNamePatterns)
  }

  /** The admission rule of the discovery handler: every device when
      "show all" is on, else one that advertises the service or whose name
      matches a pattern. */
  predicate Admits(showAllDevices: bool, p: Peripheral, advertisedServices: Option<seq<Uuid>>) {
    || showAllDevices
    || (advertisedServices.Some? && ServiceUuid in advertisedServices.value)
    || IsTargetDevice(p.name)
  }

  /** `discoveredDevices.contains(where: { $0.id == id })`. */
  predicate Listed(devices: seq<DiscoveredDevice>, id: Uuid) {
    exists i :: 0 <= i < |devices| && devices[i].id == id
  }

  predicate DistinctIds(devices: seq<DiscoveredDevice>) {
    forall i, j :: 0 <= i < j < |devices| ==> devices[i].id != devices[j].id
  }

  /** `discoveredDevices.first(where: { $0.id == id })`. */
  function FirstWithId(devices: seq<DiscoveredDevice>, id: Uuid): (found: Option<DiscoveredDevice>)
    ensures found.Some? <==> Listed(devices, id)
    ensures found.Some? ==> found.value.id == id && exists i :: 0 <= i < |devices| && devices[i] == found.value &&
                                                        forall j :: 0 <= j < i ==> devices[j].id != id
  {
    if devices == [] then None
    else if devices[0].id == id then Some(devices[0])
    else
      var rest := FirstWithId(devices[1..], id);
      assert Listed(devices[1..], id) ==> Listed(devices, id);
      assert Listed(devices, id) ==> Listed(devices[1..], id);
      rest
  }

  /** A name containing "MELK" is admitted even without the service UUID
      and with "show all" off. */
  lemma MelkDeviceAdmitted(id: Uuid)
    ensures Admits(false, Peripheral(id, Some("MELK-100")), None)
  {
    assert ContainsIgnoringCase("MELK-100", "MELK");
  }

  /** The letters at least one of which every pattern holds. */
  const MarkerLetters: seq<char> := ['l', 'b', 'g', 'm']

  /** Every pattern, lower-cased, holds one of the letters l, b, g, m:
      letter `c` at index `i`. */
  lemma PatternMarker(k: nat) returns (c: char, i: nat)
    requires k < |DeviceNamePatterns|
    ensures c in MarkerLetters && i < |DeviceNamePatterns[k]| && Lower(DeviceNamePatterns[k])[i] == c
  {
    var marker := match k
      case 0 => ('l', 1)
      case 1 => ('l', 0)
      case 2 => ('l', 0)
      case 3 => ('b', 0)
      case 4 => ('b', 0)
      case 5 => ('g', 1)
      case 6 => ('l', 0)
      case 7 => ('l', 0)
      case _ => ('m', 0);
    c, i := marker.0, marker.1;
  }

  /** A name without any of the letters l, b, g, m (in either case) matches
      no pattern. */
  lemma {:induction false} NoMarkerNoMatch(name: string)
    requires forall c :: c in MarkerLetters ==> c !in Lower(name)
    ensures !IsTargetDevice(Some(name))
  {
    forall k | 0 <= k < |DeviceNamePatterns|
      ensures !ContainsIgnoringCase(name, DeviceNamePatterns[k])
    {
      var c, i := PatternMarker(k);
      MissingCharRefutes(Lower(name), Lower(DeviceNamePatterns[k]), c);
    }
    MatchesAnyPatternIff(name, DeviceNamePatterns);
  }

  /** "Speaker" matches no pattern and is refused under the same conditions. */
  lemma SpeakerRefused(id: Uuid)
    ensures !Admits(false, Peripheral(id, Some("Speaker")), None)
  {
    assert Lower("Speaker") == "speaker";
    NoMarkerNoMatch("Speaker");
  }

  /** Without a name only "show all" or the advertised service admit. */
  lemma NamelessNeverMatches(showAll: bool, id: Uuid, advertised: Option<seq<Uuid>>)
    ensures !IsTargetDevice(None)
    ensures Admits(showAll, Peripheral(id, None), advertised) <==>
      showAll || (advertised.Some? && ServiceUuid in advertised.value)
  {
  }
}
