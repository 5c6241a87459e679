/** `GET /api/documents/download?fileId=…`: resolve a stored object's name to a
    download url. */
module DownloadRoute {
  import opened Js
  import opened Records

  /** What the url resolver does: throw, or return a url that may be absent or
      empty. */
  datatype ResolverOutcome = ResolverThrows | Resolved(url: Option<string>)

  /** The response, and the ids handed to the resolver. */
  datatype DownloadResult = DownloadResult(resp: Response, resolverCalls: seq<string>)

  const FileIdRequired := Response(400, ErrorBody("File ID is required"))
  const NotFound := Response(404, ErrorBody("File not found or could not generate download URL"))

  /** The handler; `fileId` is the query parameter, absent when not given. */
  function Download(fileId: Option<string>, resolver: ResolverOutcome): (r: DownloadResult)
    ensures !Truthy(fileId) <==> r.resp == FileIdRequired
    ensures !Truthy(fileId) ==> r.resolverCalls == []
    ensures Truthy(fileId) ==> r.resolverCalls == [fileId.value]
    ensures r.resp.status == 404 <==> Truthy(fileId) && resolver.Resolved? && !Truthy(resolver.url)
    ensures r.resp.status == 500 <==> Truthy(fileId) && resolver.ResolverThrows?
    ensures r.resp.status == 200 <==> Truthy(fileId) && resolver.Resolved? && Truthy(resolver.url)
    ensures r.resp.status == 200 ==> r.resp.body == DownloadLink(resolver.url.value)
  {
    if !Truthy(fileId) then DownloadResult(FileIdRequired, [])
    else
      var calls := [fileId.value];
      match resolver
      case ResolverThrows => DownloadResult(InternalError, calls)
      case Resolved(url) =>
        if !Truthy(url) then DownloadResult(NotFound, calls)
        else DownloadResult(Response(200, DownloadLink(url.value)), calls)
  }
}
