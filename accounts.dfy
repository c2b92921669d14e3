/** The account datatypes the core borrows from `plugin_config.py`. */
module Accounts {
  import opened Wrappers

  /** `AccountProtocol`, an `IntEnum` numbered 0 to 6. */
  datatype AccountProtocol = Default | AndroidPhone | AndroidWatch | MacOS | QiDian | IPad | APad {
    function Value(): (v: int)
      ensures 0 <= v <= 6
    {
      match this
      case Default => 0
      case AndroidPhone => 1
      case AndroidWatch => 2
      case MacOS => 3
      case QiDian => 4
      case IPad => 5
      case APad => 6
    }
  }

  /** `AccountConfig`: the identity of one supervised account. */
  datatype AccountConfig = AccountConfig(uin: int, password: Option<string>, protocol: AccountProtocol)

  /** `AccountConfig(uin=uin)`: no password and the default protocol. */
  function NewAccount(uin: int): (a: AccountConfig)
    ensures a.uin == uin && a.password == None && a.protocol == Default
  {
    AccountConfig(uin, None, Default)
  }

  /** Distinct protocols have distinct enum values. */
  lemma ProtocolValuesDistinct(p: AccountProtocol, q: AccountProtocol)
    ensures p.Value() == q.Value() ==> p == q
  {
  }
}
