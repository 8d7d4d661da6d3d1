/** The saved router settings and appliance entries (router/config-store.ts, bridge/policy.ts). */
module RouterStore {
  import opened Common

  type Ip = string
  type EntryId = string

  datatype Mode = DnatMode | LocalMode

  datatype Device = Device(
    entryId: EntryId,
    ip: Ip,
    deviceId: Option<string>,
    autoLink: Option<bool>,
    detectedName: Option<string>,
    customName: Option<string>,
    platform: Option<Platform>,
    mode: Option<Mode>,
    dnatDesired: Option<bool>)
  {
    /** An entry that says nothing about its mode forwards by DNAT. */
    function EntryMode(): Mode { if mode == Some(LocalMode) then LocalMode else DnatMode }
  }

  datatype Settings = Settings(host: Ip, port: int, username: string, password: string, rethinkIp: Ip, hostKey: Option<string>)

  datatype Config = Config(router: Settings, devices: seq<Device>)

  datatype Error = BadMode | BadAddress | Reserved | Duplicate | UnknownDevice | BadSettings | SaveFailed

  // ---------------------------------------------------------------- addresses

  function Parts(s: string): (r: seq<string>)
    ensures |r| >= 1
  {
    if s == "" then [""]
    else
      var rest := Parts(s[1..]);
      if s[0] == '.' then [""] + rest else [[s[0]] + rest[0]] + rest[1..]
  }

  function DigitsValue(s: string): nat
    requires forall i :: 0 <= i < |s| ==> '0' <= s[i] <= '9'
  {
    if s == "" then 0 else 10 * DigitsValue(s[..|s| - 1]) + (s[|s| - 1] as int - '0' as int)
  }

  predicate Octet(s: string) {
    && 1 <= |s| <= 3 && (forall i :: 0 <= i < |s| ==> '0' <= s[i] <= '9')
    && (|s| > 1 ==> s[0] != '0') && DigitsValue(s) < 256
  }

  predicate ValidIPv4(s: string) {
    var parts := Parts(s);
    |parts| == 4 && forall i :: 0 <= i < 4 ==> Octet(parts[i])
  }

  // ---------------------------------------------------------------- trimming

  /** What `trim` takes away: white space and line terminators. */
  predicate White(c: char) {
    || '\U{09}' <= c <= '\U{0D}' || c == ' ' || c == '\U{A0}' || c == '\U{1680}' || '\U{2000}' <= c <= '\U{200A}'
    || c == '\U{2028}' || c == '\U{2029}' || c == '\U{202F}' || c == '\U{205F}' || c == '\U{3000}' || c == '\U{FEFF}'
  }

  function TrimStart(s: string): string { if s != "" && White(s[0]) then TrimStart(s[1..]) else s }

  function TrimEnd(s: string): string { if s != "" && White(s[|s| - 1]) then TrimEnd(s[..|s| - 1]) else s }

  function Trim(s: string): string { TrimEnd(TrimStart(s)) }

  // ---------------------------------------------------------------- the mutators, on values

  function IndexOf(devices: seq<Device>, p: Device -> bool): (r: Option<nat>)
    ensures r.Some? ==> r.value < |devices| && p(devices[r.value]) && forall j :: 0 <= j < r.value ==> !p(devices[j])
    ensures r.None? ==> forall j :: 0 <= j < |devices| ==> !p(devices[j])
  {
    if devices == [] then None
    else if p(devices[0]) then Some(0)
    else
      var r := IndexOf(devices[1..], p);
      if r.None? then None else Some(r.value + 1)
  }

  function Find(c: Config, entryId: EntryId): Option<nat> {
    IndexOf(c.devices, (d: Device) => d.entryId == entryId)
  }

  /** An entry other than number `i` has this address, or is linked to this device. */
  predicate AddressTaken(devices: seq<Device>, i: nat, ip: Ip) {
    exists j :: 0 <= j < |devices| && j != i && devices[j].ip == ip
  }

  predicate LinkTaken(devices: seq<Device>, i: nat, deviceId: string) {
    exists j :: 0 <= j < |devices| && j != i && devices[j].deviceId == Some(deviceId)
  }

  function Set(c: Config, i: nat, d: Device): Config
    requires i < |c.devices|
  {
    c.(devices := c.devices[i := d])
  }

  function ModeOf(mode: string): Option<Mode> {
    if mode == "dnat" then Some(DnatMode) else if mode == "local" then Some(LocalMode) else None
  }

  function AddressError(c: Config, i: nat, ip: Ip): Option<Error> {
    if !ValidIPv4(ip) then Some(BadAddress)
    else if ip == c.router.host || ip == c.router.rethinkIp then Some(Reserved)
    else if AddressTaken(c.devices, i, ip) then Some(Duplicate)
    else None
  }

  function Added(c: Config, entryId: EntryId, ip: Ip, mode: Option<string>): Result<Config, Error> {
    if mode.Some? && ModeOf(mode.value).None? then Err(BadMode)
    else
      var error := AddressError(c, |c.devices|, Trim(ip));
      if error.Some? then Err(error.value)
      else
        Ok(c.(devices := c.devices +
          [Device(entryId, Trim(ip), None, None, None, None, None, if mode.Some? then ModeOf(mode.value) else None, None)]))
  }

  function Updated(c: Config, entryId: EntryId, ip: Option<Ip>, customName: Option<string>, mode: Option<string>)
    : Result<Config, Error>
  {
    var found := Find(c, entryId);
    if found.None? then Err(UnknownDevice)
    else if mode.Some? && ModeOf(mode.value).None? then Err(BadMode)
    else
      var i := found.value;
      var moves := ip.Some? && Trim(ip.value) != c.devices[i].ip;
      var error := if moves then AddressError(c, i, Trim(ip.value)) else None;
      if error.Some? then Err(error.value)
      else
        var d := if moves
                 then c.devices[i].(ip := Trim(ip.value), autoLink := None, deviceId := None, detectedName := None, platform := None)
                 else c.devices[i];
        var e := if mode.Some? then d.(mode := ModeOf(mode.value)) else d;
        Ok(Set(c, i, if customName.Some? then e.(customName := NonEmpty(Trim(customName.value))) else e))
  }

  function NonEmpty(s: string): Option<string> { if s == "" then None else Some(s) }

  function Deleted(c: Config, entryId: EntryId): Result<Config, Error> {
    var found := Find(c, entryId);
    if found.None? then Err(UnknownDevice)
    else Ok(c.(devices := c.devices[..found.value] + c.devices[found.value + 1..]))
  }

  function Linked(c: Config, entryId: EntryId, deviceId: string, detectedName: Option<string>, platform: Option<Platform>)
    : Result<Config, Error>
  {
    var found := Find(c, entryId);
    if found.None? then Err(UnknownDevice)
    else if LinkTaken(c.devices, found.value, deviceId) then Err(Duplicate)
    else Ok(Set(c, found.value, Named(c.devices[found.value].(deviceId := Some(deviceId), autoLink := None), detectedName, platform)))
  }

  function Named(d: Device, detectedName: Option<string>, platform: Option<Platform>): Device {
    var e := if detectedName.Some? && detectedName.value != "" then d.(detectedName := detectedName) else d;
    if platform.Some? then e.(platform := platform) else e
  }

  function Unlinked(c: Config, entryId: EntryId): Result<Config, Error> {
    var found := Find(c, entryId);
    if found.None? then Err(UnknownDevice)
    else
      Ok(Set(c, found.value,
             c.devices[found.value].(autoLink := Some(false), deviceId := None, detectedName := None, platform := None)))
  }

  /** Links the entry at the address a device connected from, when nothing speaks against it. */
  function LinkedByIp(
    c: Config, ip: Option<Ip>, deviceId: string, detectedName: Option<string>, platform: Option<Platform>): Config {
    if ip.None? || ip.value == "" then c
    else
      var found := IndexOf(c.devices, (d: Device) => d.ip == ip.value);
      if found.None? then c
      else
        var d := c.devices[found.value];
        if || d.autoLink == Some(false)
           || (d.deviceId.Some? && d.deviceId.value != "" && d.deviceId.value != deviceId)
           || LinkTaken(c.devices, found.value, deviceId) then c
        else Set(c, found.value, Named(d.(deviceId := Some(deviceId)), detectedName, platform))
  }

  function Desired(c: Config, entryId: EntryId, desired: bool): Result<Config, Error> {
    var found := Find(c, entryId);
    if found.None? then Err(UnknownDevice)
    else Ok(Set(c, found.value, c.devices[found.value].(dnatDesired := Some(desired))))
  }

  function Renamed(c: Config, deviceId: string, detectedName: Option<string>): Config {
    if detectedName.None? || detectedName.value == "" then c
    else
      var found := IndexOf(c.devices, (d: Device) => d.deviceId == Some(deviceId));
      if found.None? then c else Set(c, found.value, c.devices[found.value].(detectedName := detectedName))
  }

  predicate Base64Char(c: char) {
    'A' <= c <= 'Z' || 'a' <= c <= 'z' || '0' <= c <= '9' || c == '+' || c == '/'
  }

  /** "SHA256:" and 43 base64 digits that encode exactly 32 bytes, so the last digit has two zero bits. */
  predicate HostKeyFingerprint(s: string) {
    && |s| == 50 && s[..7] == "SHA256:"
    && (forall i :: 7 <= i < 50 ==> Base64Char(s[i]))
    && s[49] in "AEIMQUYcgkosw048"
  }

  predicate HasConnectionSettings(c: Config) {
    && ValidIPv4(c.router.host) && ValidIPv4(c.router.rethinkIp)
    && c.router.username != "" && c.router.password != "" && c.router.port > 0
  }

  predicate Configured(c: Config) {
    HasConnectionSettings(c) && c.router.hostKey.Some? && HostKeyFingerprint(c.router.hostKey.value)
  }

  /** The body of a request for new settings; `others` says that it has further fields. */
  datatype Patch = Patch(
    host: Option<string>,
    port: Option<int>,
    username: Option<string>,
    password: Option<string>,
    rethinkIp: Option<string>,
    hostKey: Option<string>,
    others: bool)

  /** What is not given stays; a host key only when neither the host nor the port changes. */
  function Merged(r: Settings, p: Patch): Settings {
    var host, port := Trim(Or(p.host, r.host)), Or(p.port, r.port);
    Settings(
      host,
      port,
      Trim(Or(p.username, r.username)),
      if p.password.Some? && p.password.value != "" then p.password.value else r.password,
      Trim(Or(p.rethinkIp, r.rethinkIp)),
      if p.hostKey.Some? then Some(Trim(p.hostKey.value))
      else if host == r.host && port == r.port then r.hostKey else None)
  }

  predicate Repeats<T(==)>(given: Option<T>, current: T) { given.None? || given.value == current }

  /** A request that only brings the host key that the settings lack. */
  predicate OnlyRecovers(r: Settings, p: Patch) {
    && (r.hostKey.None? || r.hostKey.value == "")
    && p.hostKey.Some? && HostKeyFingerprint(p.hostKey.value) && !p.others
    && Repeats(p.host, r.host) && Repeats(p.port, r.port) && Repeats(p.username, r.username) && Repeats(p.rethinkIp, r.rethinkIp)
    && (p.password.None? || p.password.value == "")
    && ValidIPv4(r.host) && ValidIPv4(r.rethinkIp) && 1 <= r.port <= 65535 && r.username != "" && r.password != ""
  }

  function Recovered(c: Config, p: Patch): Option<Config> {
    if OnlyRecovers(c.router, p) then Some(c.(router := c.router.(hostKey := p.hostKey))) else None
  }

  function RouterUpdated(c: Config, next: Settings): Result<Config, Error> {
    if !ValidIPv4(next.host) || !ValidIPv4(next.rethinkIp) then Err(BadSettings)
    else if next.port < 1 || next.port > 65535 || next.username == "" || next.password == "" then Err(BadSettings)
    else if next.hostKey.Some? && next.hostKey.value != "" && !HostKeyFingerprint(next.hostKey.value) then Err(BadSettings)
    else if IndexOf(c.devices, (d: Device) => d.ip == next.host || d.ip == next.rethinkIp).Some? then Err(Reserved)
    else Ok(c.(router := next))
  }

  // ---------------------------------------------------------------- writing the file

  datatype Stored = Stored(config: Config, saves: nat, error: Option<Error>)

  /**
   * A call either does what `done` says and writes it, or fails and leaves everything as it was. `writable` tells of
   * each attempt to write whether it works; some calls skip it when there is nothing to change.
   */
  function SaveOf(writable: nat -> bool, c: Config, saves: nat, done: Result<Config, Error>, always: bool): Stored {
    if done.Err? then Stored(c, saves, Some(done.error))
    else if !always && done.value == c then Stored(c, saves, None)
    else if writable(saves) then Stored(done.value, saves + 1, None)
    else Stored(c, saves + 1, Some(SaveFailed))
  }

  // ---------------------------------------------------------------- what every mutator keeps

  /** Distinct entries, addresses and linked devices, and no appliance at the router's or the server's address. */
  ghost predicate StoreOk(c: Config) {
    && (forall i, j :: 0 <= i < j < |c.devices| ==> c.devices[i].entryId != c.devices[j].entryId)
    && (forall i, j :: 0 <= i < j < |c.devices| ==> c.devices[i].ip != c.devices[j].ip)
    && (forall i, j :: 0 <= i < j < |c.devices| && c.devices[i].deviceId.Some? ==> c.devices[i].deviceId != c.devices[j].deviceId)
    && (forall i :: 0 <= i < |c.devices| ==> c.devices[i].ip != c.router.host && c.devices[i].ip != c.router.rethinkIp)
  }

  ghost predicate Keeps(c: Config, r: Result<Config, Error>) { StoreOk(c) && r.Ok? ==> StoreOk(r.value) }

  lemma SetKeeps(c: Config, i: nat, d: Device)
    requires StoreOk(c) && i < |c.devices| && d.entryId == c.devices[i].entryId
    requires d.ip == c.devices[i].ip || AddressError(c, i, d.ip).None?
    requires d.deviceId in {None, c.devices[i].deviceId} || !LinkTaken(c.devices, i, d.deviceId.value)
    ensures StoreOk(Set(c, i, d))
  {
  }

  lemma AppendKeeps(c: Config, d: Device)
    requires StoreOk(c) && d.deviceId.None? && d.ip != c.router.host && d.ip != c.router.rethinkIp
    requires forall i :: 0 <= i < |c.devices| ==> c.devices[i].entryId != d.entryId && c.devices[i].ip != d.ip
    ensures StoreOk(c.(devices := c.devices + [d]))
  {
  }

  lemma AddedKeeps(c: Config, entryId: EntryId, ip: Ip, mode: Option<string>)
    requires forall i :: 0 <= i < |c.devices| ==> c.devices[i].entryId != entryId
    ensures Keeps(c, Added(c, entryId, ip, mode))
  {
    var r := Added(c, entryId, ip, mode);
    if StoreOk(c) && r.Ok? {
      AppendKeeps(c, r.value.devices[|c.devices|]);
    }
  }

  lemma UpdatedKeeps(c: Config, entryId: EntryId, ip: Option<Ip>, customName: Option<string>, mode: Option<string>)
    ensures Keeps(c, Updated(c, entryId, ip, customName, mode))
  {
    var r := Updated(c, entryId, ip, customName, mode);
    if StoreOk(c) && r.Ok? {
      var i := Find(c, entryId).value;
      SetKeeps(c, i, r.value.devices[i]);
    }
  }

  lemma DeletedKeeps(c: Config, entryId: EntryId)
    ensures Keeps(c, Deleted(c, entryId))
  {
  }

  lemma LinkedKeeps(c: Config, entryId: EntryId, deviceId: string, detectedName: Option<string>, platform: Option<Platform>)
    ensures Keeps(c, Linked(c, entryId, deviceId, detectedName, platform))
  {
    var r := Linked(c, entryId, deviceId, detectedName, platform);
    if StoreOk(c) && r.Ok? {
      var i := Find(c, entryId).value;
      SetKeeps(c, i, r.value.devices[i]);
    }
  }

  lemma UnlinkedKeeps(c: Config, entryId: EntryId)
    ensures Keeps(c, Unlinked(c, entryId))
  {
    var r := Unlinked(c, entryId);
    if StoreOk(c) && r.Ok? {
      var i := Find(c, entryId).value;
      SetKeeps(c, i, r.value.devices[i]);
    }
  }

  lemma LinkedByIpKeeps(
    c: Config, ip: Option<Ip>, deviceId: string, detectedName: Option<string>, platform: Option<Platform>)
    ensures Keeps(c, Ok(LinkedByIp(c, ip, deviceId, detectedName, platform)))
  {
    var d := LinkedByIp(c, ip, deviceId, detectedName, platform);
    if StoreOk(c) && d != c {
      var i := IndexOf(c.devices, (e: Device) => e.ip == ip.value).value;
      SetKeeps(c, i, d.devices[i]);
    }
  }

  lemma DesiredKeeps(c: Config, entryId: EntryId, desired: bool)
    ensures Keeps(c, Desired(c, entryId, desired))
  {
    var r := Desired(c, entryId, desired);
    if StoreOk(c) && r.Ok? {
      var i := Find(c, entryId).value;
      SetKeeps(c, i, r.value.devices[i]);
    }
  }

  lemma RenamedKeeps(c: Config, deviceId: string, detectedName: Option<string>)
    ensures Keeps(c, Ok(Renamed(c, deviceId, detectedName)))
  {
    var d := Renamed(c, deviceId, detectedName);
    if StoreOk(c) && d != c {
      var i := IndexOf(c.devices, (e: Device) => e.deviceId == Some(deviceId)).value;
      SetKeeps(c, i, d.devices[i]);
    }
  }

  lemma RouterUpdatedKeeps(c: Config, next: Settings)
    ensures Keeps(c, RouterUpdated(c, next))
  {
  }

  // ---------------------------------------------------------------- the store itself

  class RouterConfigStore {
    const writable: nat -> bool
    var config: Config
    var persisted: Config
    var released: set<EntryId>
    var saves: nat

    /** Between calls, what is in memory is what was last written. */
    ghost predicate Valid() reads this { config == persisted }

    constructor (loaded: Config, writable: nat -> bool)
      ensures Valid() && config == loaded && released == {} && saves == 0 && this.writable == writable
    {
      this.writable := writable;
      config, persisted, released, saves := loaded, loaded, {}, 0;
    }

    /** Writing the file may fail; then the configuration goes back to what the file still holds. */
    method Save() returns (error: Option<Error>)
      modifies this`config, this`persisted, this`saves
      ensures config == persisted == if writable(old(saves)) then old(config) else old(persisted)
      ensures error == if writable(old(saves)) then None else Some(SaveFailed)
      ensures saves == old(saves) + 1
    {
      var written := writable(saves);
      saves := saves + 1;
      if written {
        persisted := config;
        error := None;
      } else {
        config := persisted;
        error := Some(SaveFailed);
      }
    }

    method AddDevice(entryId: EntryId, ip: Ip, mode: Option<string>) returns (error: Option<Error>)
      requires Valid()
      modifies this`config, this`persisted, this`saves
      ensures Valid()
      ensures Stored(config, saves, error)
              == SaveOf(writable, old(config), old(saves), Added(old(config), entryId, ip, mode), true)
    {
      if mode.Some? && mode.value != "dnat" && mode.value != "local" {
        return Some(BadMode);
      }
      var address := Trim(ip);
      error := AddressError(config, |config.devices|, address);
      if error.Some? {
        return;
      }
      var entry := Device(entryId, address, None, None, None, None, None, if mode.Some? then ModeOf(mode.value) else None, None);
      config := config.(devices := config.devices + [entry]);
      error := Save();
    }

    method UpdateDevice(entryId: EntryId, ip: Option<Ip>, customName: Option<string>, mode: Option<string>)
      returns (error: Option<Error>)
      requires Valid()
      modifies this`config, this`persisted, this`saves
      ensures Valid()
      ensures Stored(config, saves, error)
              == SaveOf(writable, old(config), old(saves), Updated(old(config), entryId, ip, customName, mode), true)
    {
      var found := Find(config, entryId);
      if found.None? {
        return Some(UnknownDevice);
      }
      var i := found.value;
      var entry := config.devices[i];
      if mode.Some? && mode.value != "dnat" && mode.value != "local" {
        return Some(BadMode);
      }
      if ip.Some? && Trim(ip.value) != entry.ip {
        var address := Trim(ip.value);
        error := AddressError(config, i, address);
        if error.Some? {
          return;
        }
        entry := entry.(ip := address);
        entry := entry.(autoLink := None);
        entry := entry.(deviceId := None);
        entry := entry.(detectedName := None);
        entry := entry.(platform := None);
      }
      if mode.Some? {
        entry := entry.(mode := ModeOf(mode.value));
      }
      if customName.Some? {
        entry := entry.(customName := NonEmpty(Trim(customName.value)));
      }
      config := Set(config, i, entry);
      error := Save();
    }

    method DeleteDevice(entryId: EntryId) returns (error: Option<Error>)
      requires Valid()
      modifies this`config, this`persisted, this`saves
      ensures Valid()
      ensures Stored(config, saves, error)
              == SaveOf(writable, old(config), old(saves), Deleted(old(config), entryId), true)
    {
      var found := Find(config, entryId);
      if found.None? {
        return Some(UnknownDevice);
      }
      config := config.(devices := config.devices[..found.value] + config.devices[found.value + 1..]);
      error := Save();
    }

    method LinkDevice(entryId: EntryId, deviceId: string, detectedName: Option<string>, platform: Option<Platform>)
      returns (error: Option<Error>)
      requires Valid()
      modifies this`config, this`persisted, this`saves
      ensures Valid()
      ensures Stored(config, saves, error)
              == SaveOf(writable, old(config), old(saves), Linked(old(config), entryId, deviceId, detectedName, platform), true)
    {
      var found := Find(config, entryId);
      if found.None? {
        return Some(UnknownDevice);
      }
      if LinkTaken(config.devices, found.value, deviceId) {
        return Some(Duplicate);
      }
      var entry := config.devices[found.value];
      entry := entry.(deviceId := Some(deviceId));
      entry := entry.(autoLink := None);
      config := Set(config, found.value, Named(entry, detectedName, platform));
      error := Save();
    }

    method UnlinkDevice(entryId: EntryId) returns (error: Option<Error>)
      requires Valid()
      modifies this`config, this`persisted, this`saves
      ensures Valid()
      ensures Stored(config, saves, error)
              == SaveOf(writable, old(config), old(saves), Unlinked(old(config), entryId), true)
    {
      var found := Find(config, entryId);
      if found.None? {
        return Some(UnknownDevice);
      }
      var entry := config.devices[found.value];
      entry := entry.(autoLink := Some(false), deviceId := None);
      entry := entry.(detectedName := None, platform := None);
      config := Set(config, found.value, entry);
      error := Save();
    }

    method LinkByIp(ip: Option<Ip>, deviceId: string, detectedName: Option<string>, platform: Option<Platform>)
      returns (changed: bool, error: Option<Error>)
      requires Valid()
      modifies this`config, this`persisted, this`saves
      ensures Valid()
      ensures Stored(config, saves, error)
              == SaveOf(writable, old(config), old(saves), Ok(LinkedByIp(old(config), ip, deviceId, detectedName, platform)), false)
      ensures changed <==> LinkedByIp(old(config), ip, deviceId, detectedName, platform) != old(config)
    {
      changed, error := false, None;
      if ip.None? || ip.value == "" {
        return;
      }
      var found := IndexOf(config.devices, (d: Device) => d.ip == ip.value);
      if found.None? || config.devices[found.value].autoLink == Some(false) {
        return;
      }
      var entry := config.devices[found.value];
      if entry.deviceId.Some? && entry.deviceId.value != "" && entry.deviceId.value != deviceId {
        return;
      }
      if LinkTaken(config.devices, found.value, deviceId) {
        return;
      }
      var named := detectedName.Some? && detectedName.value != "";
      changed := entry.deviceId != Some(deviceId) || (named && entry.detectedName != detectedName);
      var was := entry;
      entry := entry.(deviceId := Some(deviceId));
      if named {
        entry := entry.(detectedName := detectedName);
      }
      if platform.Some? && entry.platform != platform {
        entry := entry.(platform := platform);
        changed := true;
      }
      config := Set(config, found.value, entry);
      if changed {
        error := Save();
      }
    }

    method SetDnatDesired(entryId: EntryId, desired: bool) returns (error: Option<Error>)
      requires Valid()
      modifies this`config, this`persisted, this`saves
      ensures Valid()
      ensures Stored(config, saves, error)
              == SaveOf(writable, old(config), old(saves), Desired(old(config), entryId, desired), false)
    {
      var found := Find(config, entryId);
      if found.None? {
        return Some(UnknownDevice);
      }
      var entry := config.devices[found.value];
      if entry.dnatDesired == Some(desired) {
        return None;
      }
      config := Set(config, found.value, entry.(dnatDesired := Some(desired)));
      error := Save();
    }

    method RefreshDetectedName(deviceId: string, detectedName: Option<string>) returns (changed: bool, error: Option<Error>)
      requires Valid()
      modifies this`config, this`persisted, this`saves
      ensures Valid()
      ensures Stored(config, saves, error)
              == SaveOf(writable, old(config), old(saves), Ok(Renamed(old(config), deviceId, detectedName)), false)
      ensures changed <==> Renamed(old(config), deviceId, detectedName) != old(config)
    {
      changed, error := false, None;
      if detectedName.None? || detectedName.value == "" {
        return;
      }
      var found := IndexOf(config.devices, (d: Device) => d.deviceId == Some(deviceId));
      if found.None? || config.devices[found.value].detectedName == detectedName {
        return;
      }
      changed := true;
      config := Set(config, found.value, config.devices[found.value].(detectedName := detectedName));
      error := Save();
    }

    /** Adds a host key to settings that lack one, and nothing else. */
    method RecoverHostKeyFingerprint(input: Patch) returns (recovered: bool, error: Option<Error>)
      requires Valid()
      modifies this`config, this`persisted, this`saves
      ensures Recovered(old(config), input).None? ==>
                !recovered && error.None? && Valid() && config == old(config) && saves == old(saves)
      ensures Recovered(old(config), input).Some? ==>
                && recovered == error.None? && Valid()
                && Stored(config, saves, error) == SaveOf(writable, old(config), old(saves), Ok(Recovered(old(config), input).value), true)
    {
      if !OnlyRecovers(config.router, input) {
        return false, None;
      }
      config := config.(router := config.router.(hostKey := input.hostKey));
      error := Save();
      recovered := error.None?;
    }

    method UpdateRouter(input: Patch) returns (error: Option<Error>)
      requires Valid()
      modifies this`config, this`persisted, this`saves
      ensures Valid()
      ensures Stored(config, saves, error)
              == SaveOf(writable, old(config), old(saves), RouterUpdated(old(config), Merged(old(config).router, input)), true)
    {
      var next := Merged(config.router, input);
      if !ValidIPv4(next.host) || !ValidIPv4(next.rethinkIp) {
        return Some(BadSettings);
      }
      if next.port < 1 || next.port > 65535 || next.username == "" || next.password == "" {
        return Some(BadSettings);
      }
      if next.hostKey.Some? && next.hostKey.value != "" && !HostKeyFingerprint(next.hostKey.value) {
        return Some(BadSettings);
      }
      if IndexOf(config.devices, (d: Device) => d.ip == next.host || d.ip == next.rethinkIp).Some? {
        return Some(Reserved);
      }
      config := config.(router := next);
      error := Save();
    }
  }

  // ---------------------------------------------------------------- which entry a device goes by

  /** The entry linked to a device or, failing that, an unlinked one at the address it connects from. */
  function PolicyEntry(c: Config, id: string, sourceIp: Option<Ip>): Option<nat> {
    var linked := IndexOf(c.devices, (d: Device) => d.deviceId == Some(id));
    if linked.Some? then linked
    else
      IndexOf(c.devices, (d: Device) =>
        d.autoLink != Some(false) && (d.deviceId.None? || d.deviceId.value == "") && Some(d.ip) == sourceIp)
  }

  /** A device linked to an entry goes by that entry alone, wherever it connects from. */
  lemma LinkedGoverns(c: Config, i: nat, id: string, sourceIp: Option<Ip>)
    requires StoreOk(c) && i < |c.devices| && c.devices[i].deviceId == Some(id)
    ensures PolicyEntry(c, id, sourceIp) == Some(i)
  {
  }

  predicate Forwarding(c: Config, released: set<EntryId>, id: string, sourceIp: Option<Ip>) {
    var entry := PolicyEntry(c, id, sourceIp);
    entry.Some? && Wanted(c.devices[entry.value], released)
  }

  /** What the reconciler restores and the bridge forwards: wanted on, in DNAT mode, and not released. */
  predicate Wanted(d: Device, released: set<EntryId>) {
    d.EntryMode().DnatMode? && d.dnatDesired == Some(true) && d.entryId !in released
  }
}
