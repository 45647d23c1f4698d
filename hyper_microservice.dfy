/** The minimal hyper service: `GET /` serves a fixed HTML page, everything else is 404. */
module HyperMicroservice {

  import opened Http

  /** The page served at `/`, byte for byte as the raw string literal holds it. */
  const INDEX: string :=
    "\n<!doctype html>\n<html>\n    <head>\n        <title>Rust Microservice</title>\n    </head>\n"
    + "    <body>\n        <h3>Rust Microservice</h3>\n    </body>\n</html>\n"

  /** `microservice_handler`: dispatch on method and path only. */
  function Handle(req: Request<seq<byte>>): (r: Outcome)
    ensures r.Respond?
    ensures r.response.status == OK <==> req.httpMethod == GET && req.path == "/"
    ensures r.response.status == OK ==> r.response.body == Text(INDEX)
    ensures r.response.status != OK ==> r.response == Response(NOT_FOUND, Empty)
  {
    match (req.httpMethod, req.path)
    case (GET, "/") => Respond(OkResponse(Text(INDEX)))
    case _ => Respond(Response(NOT_FOUND, Empty))
  }

  /** The response depends on nothing but the method and the path. */
  lemma HandleIgnoresQueryAndBody(a: Request<seq<byte>>, b: Request<seq<byte>>)
    requires a.httpMethod == b.httpMethod && a.path == b.path
    ensures Handle(a) == Handle(b)
  {
  }

  /** Any other method on `/` is not found. */
  lemma OtherMethodsOnIndexNotFound(req: Request<seq<byte>>)
    requires req.path == "/" && req.httpMethod != GET
    ensures Handle(req) == Respond(Response(NOT_FOUND, Empty))
  {
  }
}
