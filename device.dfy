/** `random_device`: a full device record for one account, assembled from the
    generator seeded with the account number. */
module Device {
  import opened Strings
  import opened Accounts
  import opened DeviceGenerator
  import opened DeviceModels

  /** The short record `random_device` assembles before deriving the full
      one; the device row and the build row come from the given lists. */
  function RandomShort(uin: int, protocol: AccountProtocol, prng: Prng,
                       builds: seq<AndroidBuild>, devices: seq<AndroidDevice>): (s: ShortDeviceInfo)
    requires |builds| > 0 && |devices| > 0
    ensures ValidShort(s)
    ensures s.protocol == protocol
    ensures exists d :: d in devices && FromRow(s, d)
  {
    var g := RandomDeviceInfoGenerator(uin);
    DefaultAddressStartsWith188(g, prng);
    var (androidId, device) := g.PickAndroidDevice(prng, builds, devices);
    var s := ShortDeviceInfo(
      device.name, device.device, device.device, device.branding, device.model,
      g.Ssid(prng, "TP-LINK_"), androidId, g.BootId(prng), g.ProcVersion(prng),
      g.MacAddress(prng), g.IpAddress(prng, DEFAULT_NETWORK), g.Imei(prng), g.Incremental(prng),
      protocol);
    assert FromRow(s, device);
    s
  }

  /** product is the row's name, device and board are both the row's device,
      brand is its branding and model its model. */
  predicate FromRow(s: ShortDeviceInfo, d: AndroidDevice) {
    s.product == d.name && s.device == d.device && s.board == d.device
    && s.brand == d.branding && s.model == d.model
  }

  /** `random_device(uin, protocol)`. */
  function RandomDevice(uin: int, protocol: AccountProtocol, prng: Prng,
                        builds: seq<AndroidBuild>, devices: seq<AndroidDevice>,
                        md5Hex: string -> string): (d: DeviceInfo)
    requires |builds| > 0 && |devices| > 0
    ensures Valid(d) && d.protocol == protocol
  {
    FromShort(RandomShort(uin, protocol, prng, builds, devices), md5Hex)
  }

  /** The record is the full record of its own short part, and that short
      part takes its device fields from one row of the list. */
  lemma RandomDeviceIsDerived(uin: int, protocol: AccountProtocol, prng: Prng,
                              builds: seq<AndroidBuild>, devices: seq<AndroidDevice>,
                              md5Hex: string -> string)
    requires |builds| > 0 && |devices| > 0
    ensures var d := RandomDevice(uin, protocol, prng, builds, devices, md5Hex);
            && d == FromShort(ShortOf(d), md5Hex)
            && exists row :: row in devices && FromRow(ShortOf(d), row)
  {
    var s := RandomShort(uin, protocol, prng, builds, devices);
    FromShortExtends(s, md5Hex);
  }

  /** The shapes every generated record has: the identity fields are the
      generator's outputs for the account's seed, so they all keep the
      generator's guarantees. */
  lemma RandomDeviceShapes(uin: int, protocol: AccountProtocol, prng: Prng,
                           builds: seq<AndroidBuild>, devices: seq<AndroidDevice>,
                           md5Hex: string -> string)
    requires |builds| > 0 && |devices| > 0
    ensures var d := RandomDevice(uin, protocol, prng, builds, devices, md5Hex);
            && |d.imei| == 15 && AllDigits(d.imei)
            && |d.wifiSsid| == 14 && d.wifiSsid[..8] == "TP-LINK_"
            && |d.bootId| == 36 && |d.macAddress| == 17 && d.wifiBssid == d.macAddress
            && |d.ipAddress| == 4 && d.ipAddress[0] == 188
            && AllDigits(d.incremental) && DecimalValue(d.incremental) <= 0x1_0000_0000
            && d.display == d.androidId && d.vendorName == d.brand
            && d.version.incremental == d.incremental
            && (exists b :: b in builds && d.androidId == b.androidId)
  {
    var g := RandomDeviceInfoGenerator(uin);
    DefaultAddressStartsWith188(g, prng);
  }

  /** Every generator method reseeds: the record depends only on the
      account number, the protocol and the lists, so two calls with the same
      inputs give the same record, whichever other generator calls happen
      in between. */
  lemma RandomDeviceDependsOnSeed(uin: int, protocol: AccountProtocol, prng: Prng, other: Prng,
                                  builds: seq<AndroidBuild>, devices: seq<AndroidDevice>,
                                  md5Hex: string -> string)
    requires |builds| > 0 && |devices| > 0
    requires prng(uin) == other(uin)
    ensures RandomDevice(uin, protocol, prng, builds, devices, md5Hex)
         == RandomDevice(uin, protocol, other, builds, devices, md5Hex)
  {
  }
}
