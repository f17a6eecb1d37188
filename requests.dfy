/** The read-only request listing of routes/requests.py. */
module Requests {
  import opened Http
  import Search

  /** A stored request record; a record may lack its id. */
  datatype Request = Request(
    id: Option<int>,
    username: string,
    metal: string,
    handle: string,
    cutleryType: string,
    quantity: int,
    imageUrl: Option<string>)

  const RequestNotFound := "Request with supplied ID does not exist"

  /** `GET /requests/`: the loaded list, unchanged. */
  function RetrieveAllRequests(requests: seq<Request>): (r: seq<Request>)
    ensures r == requests
  {
    requests
  }

  /** `retrieve_request` as written: the first record with that id, and for a
      missing id a NameError, because the module never imports `status`. */
  function RetrieveRequestAsWritten(requests: seq<Request>, id: int): (r: Result<Request>)
    ensures r.Err? <==> forall k :: 0 <= k < |requests| ==> requests[k].id != Some(id)
    ensures r.Err? ==> r.error == NameError("status")
  {
    match Search.FirstIndex(requests, (q: Request) => q.id == Some(id))
    case Some(k) => Ok(requests[k])
    case None => Err(NameError("status"))
  }

  /** `retrieve_request` as intended: the first record, in list order, whose
      id is `id`, and 404 when there is none. */
  function RetrieveRequest(requests: seq<Request>, id: int): (r: Result<Request>)
    ensures r.Err? <==> forall k :: 0 <= k < |requests| ==> requests[k].id != Some(id)
    ensures r.Err? ==> r.error == NotFound(RequestNotFound) && r.error.Status() == 404
    ensures r.Ok? ==>
      exists k :: 0 <= k < |requests| && requests[k] == r.value
        && r.value.id == Some(id)
        && forall j :: 0 <= j < k ==> requests[j].id != Some(id)
  {
    match Search.FirstIndex(requests, (q: Request) => q.id == Some(id))
    case Some(k) => Ok(requests[k])
    case None => Err(NotFound(RequestNotFound))
  }

  /** The two versions agree on every id that is present; on a missing id
      the code as written answers 500 where 404 is intended. */
  lemma MissingIdIsNameError(requests: seq<Request>, id: int)
    ensures RetrieveRequestAsWritten(requests, id).Ok? ==>
      RetrieveRequestAsWritten(requests, id) == RetrieveRequest(requests, id)
    ensures RetrieveRequestAsWritten(requests, id).Err? ==>
      RetrieveRequestAsWritten(requests, id).error.Status() == 500 &&
      RetrieveRequest(requests, id).error.Status() == 404
  {
  }

  /** A concrete instance: asking an empty list for id 1. */
  lemma EmptyListLookup()
    ensures RetrieveRequestAsWritten([], 1) == Err(NameError("status"))
    ensures RetrieveRequest([], 1) == Err(NotFound(RequestNotFound))
  {
  }
}
