/** The HTTP reply shape `hRpcResult` (cmd/kaspawallet/main.go:22-26),
    serialised as `{"result": …, "txs": […], "error": …}`. */
module Envelope {

  newtype int8 = x: int | -128 <= x < 128

  datatype HRpcResult = HRpcResult(result: int8, txIds: seq<string>, errorMsg: string)

  const NoProcedurePrefix: string := "No rpc procedure found for path "

  /** The reply for a path the handler does not route. */
  function NoProcedure(path: string): (r: HRpcResult)
  {
    HRpcResult(1, [], NoProcedurePrefix + path)
  }

  /** The reply for a send that reached the end of the handler with no error. */
  function Sent(ids: seq<string>): (r: HRpcResult)
  {
    HRpcResult(0, ids, "")
  }

  /** The reply built from an error at main.go:153-158. */
  function Failure(message: string): (r: HRpcResult)
  {
    HRpcResult(1, [], message)
  }
}
