/**
 * The document endpoints of app/api/documentApi.ts: a paged search with
 * defaults, item requests on `/documents/{id}`, the upload of a form body,
 * the per-entity listings and the statistics query.
 */
module DocumentApi {
  import opened Common
  import opened Js
  import opened Query
  import opened DocumentUpload

  /** The upload body: the multipart form `DocumentUpload` assembles. */
  type FormData = seq<FormEntry>

  const DocumentsPath := "/documents"
  const SearchPath := "/documents/search"
  const UploadPath := "/documents/upload"

  /**
   * `searchDocuments`' query: `/documents/search?search=S&page=P&size=Z`
   * with defaults '', 0 and 10.
   */
  function SearchDocuments(search: Option<string>, page: Option<int>, size: Option<int>): (r: Request<FormData>)
    ensures r.httpMethod == GET && r.body == None
    ensures r.url == WithQuery(SearchPath, PageParams(search, page, size))
    ensures '&' !in search.GetOr("") ==> ReadUrl(r.url) == (SearchPath, PageParams(search, page, size))
  {
    var s, p, z := search.GetOr(""), IntToString(page.GetOr(0)), IntToString(size.GetOr(10));
    PageTemplate(SearchPath, s, p, z);
    PageReadsBack(SearchPath, search, page, size);
    GetRequest(SearchPath + "?search=" + s + "&page=" + p + "&size=" + z)
  }

  /** With nothing given, the search asks for the first page of ten, unfiltered. */
  lemma SearchDefaults()
    ensures SearchDocuments(None, None, None).url
         == WithQuery(SearchPath, [("search", ""), ("page", "0"), ("size", "10")])
  {
    DefaultPageText();
  }

  /** `getDocument`: a GET on `/documents/{id}`. */
  function GetDocument(id: int): (r: Request<FormData>)
    ensures r.url == ItemUrl(DocumentsPath, id) && r.httpMethod == GET && r.body == None
  {
    GetRequest(ItemUrl(DocumentsPath, id))
  }

  /** `uploadDocument`: a POST of the form, entries and order as given. */
  function UploadDocument(formData: FormData): (r: Request<FormData>)
    ensures r.url == UploadPath && r.httpMethod == POST && r.body == Some(formData)
  {
    Request(UploadPath, POST, Some(formData))
  }

  /** `deleteDocument`: a DELETE on `/documents/{id}`, without a body. */
  function DeleteDocument(id: int): (r: Request<FormData>)
    ensures r.url == ItemUrl(DocumentsPath, id) && r.httpMethod == DELETE && r.body == None
  {
    Request(ItemUrl(DocumentsPath, id), DELETE, None)
  }

  /** Get and delete address the same document, told apart by method. */
  lemma SameDocumentUrl(id: int)
    ensures GetDocument(id).url == DeleteDocument(id).url
    ensures GetDocument(id).httpMethod != DeleteDocument(id).httpMethod
  {
  }

  /** `/documents/entity/${entityType}/${entityId}`. */
  function EntityUrl(entityType: string, entityId: int): string {
    "/documents/entity/" + entityType + "/" + IntToString(entityId)
  }

  /** `getDocumentsByEntity`: a GET on the entity's document listing. */
  function DocumentsByEntity(entityType: string, entityId: int): (r: Request<FormData>)
    ensures r.url == EntityUrl(entityType, entityId) && r.httpMethod == GET && r.body == None
  {
    GetRequest(EntityUrl(entityType, entityId))
  }

  /** `getDocumentsByEntityAndCategory`: the entity's listing narrowed to one category. */
  function DocumentsByEntityAndCategory(entityType: string, entityId: int, category: string): (r: Request<FormData>)
    ensures r.httpMethod == GET && r.body == None
    ensures r.url == EntityUrl(entityType, entityId) + "/category/" + category
  {
    GetRequest("/documents/entity/" + entityType + "/" + IntToString(entityId) + "/category/" + category)
  }

  /**
   * The entity listing's path segments: the entity type and the id (which
   * parses back), provided the type holds no '/'.
   */
  lemma EntityUrlSegments(entityType: string, entityId: int)
    requires '/' !in entityType
    ensures Split(EntityUrl(entityType, entityId), '/') == ["", "documents", "entity", entityType, IntToString(entityId)]
    ensures ParseInt(Split(EntityUrl(entityType, entityId), '/')[4]) == Some(entityId)
  {
    var n := IntToString(entityId);
    IntToStringSeparable(entityId);
    ParseIntOfIntToString(entityId);
    EntityJoin(entityType, n);
    var parts := ["", "documents", "entity", entityType, n];
    NoSlash(parts);
    SplitJoin(parts, '/');
  }

  /** The entity listing's path is its five segments joined by '/'. */
  lemma EntityJoin(t: string, n: string)
    ensures Join(["", "documents", "entity", t, n], '/') == "/documents/entity/" + t + "/" + n
  {
    var p := ["", "documents", "entity", t, n];
    assert p[1..] == ["documents", "entity", t, n];
    assert p[1..][1..] == ["entity", t, n];
    assert p[1..][1..][1..] == [t, n];
    assert p[1..][1..][1..][1..] == [n];
    assert Join([t, n], '/') == t + ['/'] + n;
    assert Join(["entity", t, n], '/') == "entity" + ['/'] + (t + ['/'] + n);
    assert Join(["documents", "entity", t, n], '/') == "documents" + ['/'] + ("entity" + ['/'] + (t + ['/'] + n));
    assert Join(p, '/') == "" + ['/'] + ("documents" + ['/'] + ("entity" + ['/'] + (t + ['/'] + n)));
  }

  /** The category listing has the entity listing's segments, then "category" and the category. */
  lemma CategoryUrlSegments(entityType: string, entityId: int, category: string)
    requires '/' !in entityType && '/' !in category
    ensures Split(DocumentsByEntityAndCategory(entityType, entityId, category).url, '/')
         == ["", "documents", "entity", entityType, IntToString(entityId), "category", category]
  {
    var n := IntToString(entityId);
    IntToStringSeparable(entityId);
    var parts := ["", "documents", "entity", entityType, n, "category", category];
    CategoryJoin(entityType, n, category);
    NoSlash(parts);
    SplitJoin(parts, '/');
  }

  /** The category listing's path is its seven segments joined by '/'. */
  lemma CategoryJoin(t: string, n: string, c: string)
    ensures Join(["", "documents", "entity", t, n, "category", c], '/')
         == "/documents/entity/" + t + "/" + n + "/category/" + c
  {
    var head := ["", "documents", "entity", t, n];
    var tail := ["category", c];
    EntityJoin(t, n);
    JoinAppend(head, tail, '/');
    assert tail[1..] == [c];
    assert Join(tail, '/') == "category" + ['/'] + c;
    assert head + tail == ["", "documents", "entity", t, n, "category", c];
    var entity := "/documents/entity/" + t + "/" + n;
    assert entity + ['/'] + ("category" + ['/'] + c) == entity + "/category/" + c;
  }

  /** No segment of a document listing's path holds a '/', given that the variable ones do not. */
  lemma NoSlash(parts: seq<string>)
    requires |parts| >= 5 && parts[..3] == ["", "documents", "entity"]
    requires forall i :: 3 <= i < |parts| ==> '/' !in parts[i] || parts[i] == "category"
    ensures forall i :: 0 <= i < |parts| ==> '/' !in parts[i]
  {
    assert parts[0] == "" && parts[1] == "documents" && parts[2] == "entity";
    assert '/' !in "documents" && '/' !in "entity" && '/' !in "category";
  }

  /** `getDocumentStats`: a GET on `/documents/stats`, with no parameters. */
  function DocumentStats(): (r: Request<FormData>)
    ensures r.url == "/documents/stats" && r.httpMethod == GET && r.body == None
    ensures ReadUrl(r.url) == (r.url, [])
  {
    FixedGet("/documents/stats")
  }
}
