/**
 * The HTTP back end of lib_db (databases/http.rs): the base URL `create` chooses from
 * `DBPATH`, the status check, and the one POST per batch. URL parsing and the server's
 * answers are parameters.
 */
module Http {
  import opened Wrappers
  import opened Records

  const DefaultEndpoint := "https://localhost:3000"
  const MissingPath := "Invalid URL scheme"

  /** `create`'s choice of base URL. `scheme` is `Url::parse` followed by `scheme()`, `None`
      when the text does not parse. Without `DBPATH` there is no database. */
  function BaseUrl(dbpath: Option<string>, scheme: string -> Option<string>): (r: Result<string, string>)
    ensures dbpath.None? <==> r == Err(MissingPath)
    ensures dbpath.Some? ==> r.Ok? && (r.value == dbpath.value || r.value == DefaultEndpoint)
  {
    match dbpath
    case None => Err(MissingPath)
    case Some(path) =>
      match scheme(path)
      case Some(s) => if s == "https" then Ok(path) else Ok(DefaultEndpoint)
      case None => Ok(DefaultEndpoint)
  }

  /** `DBPATH` is used verbatim exactly when it is an https URL (or happens to be the
      default itself). */
  lemma BaseUrlVerbatim(path: string, scheme: string -> Option<string>)
    ensures BaseUrl(Some(path), scheme) == Ok(path) <==> scheme(path) == Some("https") || path == DefaultEndpoint
    ensures scheme(path) != Some("https") ==> BaseUrl(Some(path), scheme) == Ok(DefaultEndpoint)
  {
  }

  /** A response: its status code and its body, whose reading can fail. */
  datatype Response = Response(status: nat, body: Result<string, string>)

  predicate IsSuccess(status: nat) {
    200 <= status < 300
  }

  /** `validate_response`: a success status passes the response through untouched, any
      other is an error naming the context and the status. `show` is how a status prints. */
  function ValidateResponse(response: Response, context: string, show: nat -> string): (r: Result<Response, string>)
    ensures r.Ok? <==> IsSuccess(response.status)
    ensures r.Ok? ==> r.value == response
    ensures r.Err? ==> r.error == "Failed to " + context + ". Status: " + show(response.status)
  {
    if !IsSuccess(response.status) then Err("Failed to " + context + ". Status: " + show(response.status))
    else Ok(response)
  }

  /** `HttpDatabase`: the base URL and the batches posted to it. `server` answers a POST
      of a batch to a URL, or fails to deliver it. */
  class HttpDatabase {
    const baseUrl: string
    const server: (string, seq<Record>) -> Result<Response, string>
    const show: nat -> string
    var posted: seq<(string, seq<Record>)>

    constructor (baseUrl: string, server: (string, seq<Record>) -> Result<Response, string>, show: nat -> string)
      ensures this.baseUrl == baseUrl && this.server == server && this.show == show && posted == []
    {
      this.baseUrl := baseUrl;
      this.server := server;
      this.show := show;
      posted := [];
    }

    /** `create`: fails without `DBPATH`, otherwise holds the chosen base URL. */
    static method Create(dbpath: Option<string>, scheme: string -> Option<string>,
                         server: (string, seq<Record>) -> Result<Response, string>, show: nat -> string)
      returns (r: Result<HttpDatabase, string>)
      ensures dbpath.None? ==> r == Err(MissingPath)
      ensures dbpath.Some? ==> r.Ok? && fresh(r.value) && Ok(r.value.baseUrl) == BaseUrl(dbpath, scheme)
                               && r.value.server == server && r.value.posted == []
    {
      var url := BaseUrl(dbpath, scheme);
      match url {
        case Err(e) =>
          r := Err(e);
        case Ok(u) =>
          var db := new HttpDatabase(u, server, show);
          r := Ok(db);
      }
    }

    /** `insert_batch`: the batch is posted to the base URL itself. A failed send is
        returned as it is; a status other than success is an error with the status and the
        body, unless reading the body fails, which is then the error. */
    method InsertBatch(messages: seq<Record>) returns (r: Result<(), string>)
      modifies this
      ensures posted == old(posted) + [(baseUrl, messages)]
      ensures var answer := server(baseUrl, messages);
              (r.Ok? <==> answer.Ok? && IsSuccess(answer.value.status))
              && (answer.Err? ==> r == Err(answer.error))
              && (answer.Ok? && !IsSuccess(answer.value.status) ==>
                    r == match answer.value.body
                         case Ok(text) => Err("HTTP error " + show(answer.value.status) + ": " + text)
                         case Err(e) => Err(e))
    {
      posted := posted + [(baseUrl, messages)];
      var answer := server(baseUrl, messages);
      match answer {
        case Err(e) =>
          return Err(e);
        case Ok(response) =>
          if !IsSuccess(response.status) {
            match response.body {
              case Err(e) =>
                return Err(e);
              case Ok(text) =>
                return Err("HTTP error " + show(response.status) + ": " + text);
            }
          }
      }
      r := Ok(());
    }

    /** `flush`: nothing to do. */
    method Flush() returns (r: Result<(), string>)
      ensures r.Ok?
    {
      r := Ok(());
    }
  }
}
