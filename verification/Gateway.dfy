/** The payment gateway as the service sees it: it answers whatever it likes. */
module GatewayClient {
  import opened Protocol
  import opened Promises

  /** A request the gateway was sent, and what came back. */
  datatype GatewayCommand =
    | Tokenized(ok: bool)
    | Sent(request: Request, response: Response)

  class Gateway {
    ghost var commands: seq<GatewayCommand>

    constructor ()
    {
      commands := [];
    }

    method TokenizeCard() returns (ok: bool)
      modifies this
      ensures commands == old(commands) + [Tokenized(ok)]
    {
      ok := *;
      commands := commands + [Tokenized(ok)];
    }

    method Send(request: Request) returns (response: Response)
      modifies this
      ensures commands == old(commands) + [Sent(request, response)]
    {
      response := *;
      commands := commands + [Sent(request, response)];
    }
  }
}
