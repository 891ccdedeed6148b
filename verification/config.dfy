/** The client object: its token, environment flag, auth header and host. */
module Config {

  const DevBaseUrl := "https://dev.anidiots.guide"
  const ProdBaseUrl := "https://api.anidiots.guide"

  /** The attributes of a constructed `Client`. `dev` is read again by every
      endpoint call, while `headerName` and `baseUrl` are fixed by the
      constructor. */
  datatype Client = Client(token: string, dev: bool, headerName: string, baseUrl: string)

  /** `Client(token, dev=False)`: the development environment authenticates
      with an `Authorization` header against the dev host, production with a
      `token` header against the api host. */
  function NewClient(token: string, dev: bool := false): (c: Client)
    ensures c.token == token && c.dev == dev
    ensures c.headerName == "Authorization" <==> dev
    ensures c.headerName == "token" <==> !dev
    ensures c.baseUrl == DevBaseUrl <==> dev
    ensures c.baseUrl == ProdBaseUrl <==> !dev
  {
    Client(token, dev, if dev then "Authorization" else "token", if dev then DevBaseUrl else ProdBaseUrl)
  }

  /** The client as the constructor left it. */
  predicate Constructed(c: Client) {
    c == NewClient(c.token, c.dev)
  }

  /** Header name and host always agree on the environment, and the omitted
      flag means production. */
  lemma HeaderAndHostAgree(token: string, dev: bool)
    ensures var c := NewClient(token, dev);
      c.headerName == "Authorization" <==> c.baseUrl == DevBaseUrl
    ensures NewClient(token) == NewClient(token, false)
    ensures NewClient(token).baseUrl == ProdBaseUrl
  {
  }
}
