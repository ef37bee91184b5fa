/** The display helpers of the front end's `utils/ui.ts`. */
module Ui {
  import WalletAdapter

  /** `formatAddress`: anything shorter than ten characters (the empty string
      included) is shown as it is; a longer string keeps its first six and last
      four characters around an ellipsis. */
  function FormatAddress(address: string): (r: string)
    ensures |address| < 10 ==> r == address
    ensures |address| >= 10 ==>
              && |r| == 13
              && r[..6] == address[..6]
              && r[6..9] == "..."
              && r[9..] == address[|address| - 4..]
  {
    if |address| < 10 then address
    else address[..6] + "..." + address[|address| - 4..]
  }

  /** Shortening is idempotent: a shortened address is long enough to be
      shortened again, to itself. */
  lemma FormatAddressIdempotent(address: string)
    ensures FormatAddress(FormatAddress(address)) == FormatAddress(address)
  {
    var r := FormatAddress(address);
    if |address| >= 10 {
      assert r == r[..6] + r[6..9] + r[9..];
    }
  }

  /** On a valid address this helper and the adapter's agree; they differ on
      long invalid strings, which only this one shortens (a string of exactly
      13 characters may already be in shortened form). */
  lemma AgreesWithAdapter(address: string)
    ensures WalletAdapter.IsValidAddress(address) ==> FormatAddress(address) == WalletAdapter.FormatAddress(address)
    ensures |address| >= 10 && |address| != 13 && !WalletAdapter.IsValidAddress(address) ==>
              FormatAddress(address) != WalletAdapter.FormatAddress(address)
  {
  }

  const CompletedClasses := "bg-green-100 text-green-800 dark:bg-green-900/20 dark:text-green-400"
  const PendingClasses := "bg-yellow-100 text-yellow-800 dark:bg-yellow-900/20 dark:text-yellow-400"
  const FailedClasses := "bg-red-100 text-red-800 dark:bg-red-900/20 dark:text-red-400"
  const DefaultClasses := "bg-gray-100 text-gray-800 dark:bg-gray-900/20 dark:text-gray-400"

  /** The `statusColors` record as a map. */
  const StatusColors: map<string, string> := map[
    "completed" := CompletedClasses,
    "pending" := PendingClasses,
    "failed" := FailedClasses,
    "default" := DefaultClasses]

  /** `getStatusColor(status)`: the record's entry, or its `default` entry. */
  function GetStatusColor(status: string): (r: string)
    ensures status == "completed" ==> r == CompletedClasses
    ensures status == "pending" ==> r == PendingClasses
    ensures status == "failed" ==> r == FailedClasses
    ensures status !in {"completed", "pending", "failed"} ==> r == DefaultClasses
  {
    if status in StatusColors && StatusColors[status] != "" then StatusColors[status] else StatusColors["default"]
  }

  /** The three named statuses are told apart, and no other status is told
      apart from the default. */
  lemma StatusColorsDistinct(s: string, t: string)
    ensures GetStatusColor(s) == GetStatusColor(t) <==>
              s == t || (s !in {"completed", "pending", "failed"} && t !in {"completed", "pending", "failed"})
  {
  }
}
