/** The input guard of the mint handler (client/src/App.tsx:131-137): the
    `createNFT` write is made only when name, symbol and URI are all filled in. */
module Mint {

  const FillAllFields: string := "Please fill all the fields"

  /** What the handler does first: alert and return, or send the write. */
  datatype MintAction = Alert(message: string) | CreateNft(args: seq<string>)

  function HandleMintNft(name: string, symbol: string, uri: string): (a: MintAction)
    ensures a.CreateNft? <==> name != "" && symbol != "" && uri != ""
    ensures a.CreateNft? ==> a.args == [name, symbol, uri]
    ensures a.Alert? ==> a.message == FillAllFields
  {
    if name == "" || symbol == "" || uri == "" then Alert(FillAllFields)
    else CreateNft([name, symbol, uri])
  }
}
