/** The settings the services read, fixed for the life of the process, and
    the statuses the transaction ledgers record. */
module Config {

  /** The environment-sourced settings (merchant codes, secrets, URLs). */
  datatype Settings = Settings(
    vnpayTmnCode: string,
    vnpayHashSecret: string,
    vnpayUrl: string,
    vnpayReturnUrl: string,
    vnpayApiVersion: string,
    momoPartnerCode: string,
    momoAccessKey: string,
    momoSecretKey: string,
    momoReturnUrl: string,
    momoNotifyUrl: string)

  /** A ledger entry: `"pending"`, `"success"` or `"failed"`. */
  datatype Status = Pending | Success | Failed
  {
    function Name(): string
    {
      match this
      case Pending => "pending"
      case Success => "success"
      case Failed => "failed"
    }
  }

  /** `"success" if <provider reports success> else "failed"`. */
  function Outcome(succeeded: bool): (s: Status)
    ensures s == Success <==> succeeded
    ensures s != Pending
  {
    if succeeded then Success else Failed
  }
}
