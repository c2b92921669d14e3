/** The device records written to `device.json`: the short record the
    generator fills in and the full record derived from it. */
module DeviceModels {
  import opened Accounts

  /** `VersionInfo`: the Android build version block. */
  datatype VersionInfo = VersionInfo(incremental: string, release: string, codename: string, sdk: int)

  /** `VersionInfo(incremental=...)`: release "10", codename "REL", sdk 29. */
  function NewVersionInfo(incremental: string): (v: VersionInfo)
    ensures v.incremental == incremental
    ensures v.release == "10" && v.codename == "REL" && v.sdk == 29
  {
    VersionInfo(incremental, "10", "REL", 29)
  }

  /** `ShortDeviceInfo`: the fields drawn for one account. */
  datatype ShortDeviceInfo = ShortDeviceInfo(
    product: string, device: string, board: string, brand: string, model: string,
    wifiSsid: string, androidId: string, bootId: string, procVersion: string,
    macAddress: string, ipAddress: seq<int>, imei: string, incremental: string,
    protocol: AccountProtocol)

  /** The field constraint of the record: exactly four address items. */
  predicate ValidShort(s: ShortDeviceInfo) {
    |s.ipAddress| == 4
  }

  /** `DeviceInfo`, a subclass of `ShortDeviceInfo`: every short field plus
      the derived and defaulted ones. */
  datatype DeviceInfo = DeviceInfo(
    product: string, device: string, board: string, brand: string, model: string,
    wifiSsid: string, androidId: string, bootId: string, procVersion: string,
    macAddress: string, ipAddress: seq<int>, imei: string, incremental: string,
    protocol: AccountProtocol,
    display: string, fingerPrint: string, baseband: string, sim: string, simInfo: string,
    osType: string, bootloader: string, wifiBssid: string, apn: string,
    version: VersionInfo, imsiMd5: string, vendorName: string, vendorOsName: string)

  /** A full record seen as the short record it extends. */
  function ShortOf(d: DeviceInfo): ShortDeviceInfo {
    ShortDeviceInfo(d.product, d.device, d.board, d.brand, d.model, d.wifiSsid, d.androidId,
                    d.bootId, d.procVersion, d.macAddress, d.ipAddress, d.imei, d.incremental,
                    d.protocol)
  }

  predicate Valid(d: DeviceInfo) {
    ValidShort(ShortOf(d))
  }

  /** `{brand}/{product}/{device}:10/{android_id}/{incremental}:user/release-keys`. */
  function FingerPrint(s: ShortDeviceInfo): string {
    s.brand + "/" + s.product + "/" + s.device + ":10/" + s.androidId + "/" + s.incremental
    + ":user/release-keys"
  }

  /** `DeviceInfo.from_short`: the hexadecimal MD5 digest is a parameter. */
  function FromShort(s: ShortDeviceInfo, md5Hex: string -> string): (d: DeviceInfo)
    requires ValidShort(s)
    ensures Valid(d)
    ensures d.display == s.androidId
    ensures d.fingerPrint == FingerPrint(s)
    ensures d.wifiBssid == s.macAddress && d.vendorName == s.brand
    ensures d.version == NewVersionInfo(s.incremental)
    ensures d.imsiMd5 == md5Hex(s.imei)
    ensures Defaulted(d)
  {
    DeviceInfo(s.product, s.device, s.board, s.brand, s.model, s.wifiSsid, s.androidId,
               s.bootId, s.procVersion, s.macAddress, s.ipAddress, s.imei, s.incremental,
               s.protocol,
               s.androidId, FingerPrint(s), "", "T-Mobile", "T-Mobile",
               "android", "U-boot", s.macAddress, "wifi",
               NewVersionInfo(s.incremental), md5Hex(s.imei), s.brand, "android")
  }

  /** The model's default values for the fields `from_short` leaves alone. */
  predicate Defaulted(d: DeviceInfo) {
    && d.baseband == "" && d.sim == "T-Mobile" && d.simInfo == "T-Mobile"
    && d.osType == "android" && d.bootloader == "U-boot" && d.apn == "wifi"
    && d.vendorOsName == "android"
  }

  /** Every short field is copied unchanged: the full record extends the
      short record it came from. */
  lemma FromShortExtends(s: ShortDeviceInfo, md5Hex: string -> string)
    requires ValidShort(s)
    ensures ShortOf(FromShort(s, md5Hex)) == s
  {
  }

  /** A full record is determined by its short part: the derived fields are
      recomputed from it. */
  lemma FromShortIsDetermined(d: DeviceInfo, e: DeviceInfo, md5Hex: string -> string)
    requires ValidShort(ShortOf(d)) && ValidShort(ShortOf(e))
    requires d == FromShort(ShortOf(d), md5Hex) && e == FromShort(ShortOf(e), md5Hex)
    ensures ShortOf(d) == ShortOf(e) <==> d == e
  {
  }
}
