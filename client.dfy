/**
 * The `WebMonitoringDb` API client: its connection settings, the URL each
 * endpoint requests, and the Basic authentication header of the one write
 * request. The requests themselves (fetch, JSON decoding of the response)
 * are outside the model; the normalisers applied to the responses are in
 * module Normalize.
 */
module Client {
  import opened Wrappers
  import opened Json
  import opened Query
  import Base64

  /** The staging server used when no URL is configured; it already ends in '/'. */
  const DefaultApiUrl: string := "https://web-monitoring-db-staging.herokuapp.com/"

  /** The prefix every request path is joined under. */
  const ApiPrefix: string := "api/v0/"

  /** The constructor's options object; every property may be missing (the default `{}` has none). */
  datatype Options = Options(url: Option<string>, user: Option<string>, password: Option<string>)

  predicate EndsWithSlash(s: string) {
    |s| > 0 && s[|s| - 1] == '/'
  }

  /** A property inside a template literal: a missing one renders as "undefined". */
  function Show(s: Option<string>): (r: string)
    ensures s.Some? ==> r == s.value
    ensures s.None? ==> r == "undefined"
  {
    match s
    case None => "undefined"
    case Some(v) => v
  }

  // The paths the endpoints hand to `createUrl`.
  function PagesPath(): string { "pages" }
  function PagePath(pageId: string): string { "pages/" + pageId }
  function VersionsPath(pageId: string): string { "pages/" + pageId + "/versions" }
  function VersionPath(pageId: string, versionId: string): string { "pages/" + pageId + "/versions/" + versionId }
  function AnnotationsPath(pageId: string, versionId: string): string {
    "pages/" + pageId + "/versions/" + versionId + "/annotations"
  }
  /** The diff path as `getDiff` writes it: it repeats the "/api/v0/" prefix `createUrl` adds. */
  function DiffPathAsWritten(pageId: string, aId: string, bId: string, diffType: string): string {
    "/api/v0/pages/" + pageId + "/changes/" + aId + ".." + bId + "/diff/" + diffType
  }
  /** The diff path relative to the API prefix, as the server expects it. */
  function DiffPath(pageId: string, aId: string, bId: string, diffType: string): string {
    "pages/" + pageId + "/changes/" + aId + ".." + bId + "/diff/" + diffType
  }

  /** `getDiff` requests the prefix twice, with an empty path segment between the copies. */
  lemma DiffUrlRepeatsPrefix(base: string, pageId: string, aId: string, bId: string, diffType: string)
    ensures base + ApiPrefix + DiffPathAsWritten(pageId, aId, bId, diffType)
            == base + "api/v0//api/v0/" + DiffPath(pageId, aId, bId, diffType)
    ensures base + ApiPrefix + DiffPathAsWritten(pageId, aId, bId, diffType)
            != base + ApiPrefix + DiffPath(pageId, aId, bId, diffType)
  {
  }

  class WebMonitoringDb {
    var url: string
    var user: Option<string>
    var password: Option<string>

    /**
     * `options.url || defaultApiUrl`, then a '/' appended unless already
     * there, so that `api/v0/` starts a path segment of its own.
     */
    constructor (options: Options)
      ensures EndsWithSlash(url)
      ensures options.url.None? || options.url == Some("") ==> url == DefaultApiUrl
      ensures options.url.Some? && options.url.value != "" && EndsWithSlash(options.url.value) ==>
                url == options.url.value
      ensures options.url.Some? && options.url.value != "" && !EndsWithSlash(options.url.value) ==>
                url == options.url.value + "/"
      ensures user == options.user && password == options.password
    {
      url := if options.url.Some? && options.url.value != "" then options.url.value else DefaultApiUrl;
      new;
      if !EndsWithSlash(url) {
        url := url + "/";
      }
      user := options.user;
      password := options.password;
    }

    /**
     * `createUrl(path, query)`: the base URL, the API prefix and the path;
     * then, when the query has entries, '?' and their components joined
     * with '&'. `enc` is the host's `encodeURIComponent`.
     */
    method CreateUrl(path: string, query: Option<seq<QueryEntry>>, enc: string -> string) returns (u: string)
      ensures query.None? || |query.value| == 0 ==> u == url + ApiPrefix + path
      ensures query.Some? && |query.value| > 0 ==>
                u == url + ApiPrefix + path + "?" + Join(Components(enc, query.value), '&')
    {
      u := url + ApiPrefix + path;
      if query.Some? {
        var q := query.value;
        var queryList: seq<string> := [];
        for i := 0 to |q|
          invariant |queryList| == i
          invariant forall j :: 0 <= j < i ==> queryList[j] == Component(enc, q[j])
        {
          var entry := q[i];
          if entry.value.None? {
            queryList := queryList + [enc(entry.key)];
          } else {
            queryList := queryList + [enc(entry.key) + "=" + enc(entry.value.value)];
          }
        }
        assert queryList == Components(enc, q);
        if |queryList| > 0 {
          u := u + "?" + Join(queryList, '&');
        }
      }
    }

    /** The URL `getPages` fetches. */
    method GetPagesUrl(enc: string -> string) returns (u: string)
      ensures u == url + "api/v0/pages"
    {
      u := CreateUrl(PagesPath(), None, enc);
    }

    /** The URL `getPage` fetches. */
    method GetPageUrl(pageId: string, enc: string -> string) returns (u: string)
      ensures u == url + "api/v0/pages/" + pageId
    {
      u := CreateUrl(PagePath(pageId), None, enc);
    }

    /** The URL `getVersions` fetches. */
    method GetVersionsUrl(pageId: string, enc: string -> string) returns (u: string)
      ensures u == url + "api/v0/pages/" + pageId + "/versions"
    {
      u := CreateUrl(VersionsPath(pageId), None, enc);
    }

    /** The URL `getVersion` fetches. */
    method GetVersionUrl(pageId: string, versionId: string, enc: string -> string) returns (u: string)
      ensures u == url + "api/v0/pages/" + pageId + "/versions/" + versionId
    {
      u := CreateUrl(VersionPath(pageId, versionId), None, enc);
    }

    /** The URL `getDiff` fetches, as written: the API prefix appears twice. */
    method GetDiffUrl(pageId: string, aId: string, bId: string, diffType: string, enc: string -> string)
      returns (u: string)
      ensures u == url + "api/v0//api/v0/pages/" + pageId + "/changes/" + aId + ".." + bId + "/diff/" + diffType
    {
      u := CreateUrl(DiffPathAsWritten(pageId, aId, bId, diffType), None, enc);
    }

    /** The URL `getDiff` is meant to fetch, with the path given relative to the prefix. */
    method GetDiffUrlIntended(pageId: string, aId: string, bId: string, diffType: string, enc: string -> string)
      returns (u: string)
      ensures u == url + "api/v0/pages/" + pageId + "/changes/" + aId + ".." + bId + "/diff/" + diffType
    {
      u := CreateUrl(DiffPath(pageId, aId, bId, diffType), None, enc);
    }

    /** `${this.user}:${this.password}`. */
    function Credentials(): (r: string)
      reads this
      ensures var u := Show(user);
              && |r| == |u| + 1 + |Show(password)|
              && r[..|u|] == u && r[|u|] == ':' && r[|u| + 1..] == Show(password)
    {
      Show(user) + ":" + Show(password)
    }

    /**
     * `basicAuthHeader()`: "Basic " and the Base64 encoding of the
     * credentials, which decodes back to them; `btoa` raises for a
     * credential character above U+00FF.
     */
    function BasicAuthHeader(): (r: Result<string, JsError>)
      reads this
      ensures r.Failure? <==> !Base64.IsLatin1(Credentials())
      ensures r.Failure? ==> r.error == InvalidCharacterError
      ensures r.Success? ==> r.value == "Basic " + Base64.Btoa(Credentials()).value
      ensures r.Success? ==> |r.value| >= 6 && r.value[..6] == "Basic " && Base64.Atob(r.value[6..]) == Credentials()
    {
      match Base64.Btoa(Credentials())
      case Failure(e) => Failure(e)
      case Success(encoded) =>
        Base64.BtoaRoundTrip(Credentials());
        assert ("Basic " + encoded)[6..] == encoded;
        Success("Basic " + encoded)
    }

    /**
     * The request `annotateVersion` sends, apart from its JSON body: the URL,
     * and the Authorization header (or the exception building it raises).
     */
    method AnnotateVersionRequest(pageId: string, versionId: string, enc: string -> string)
      returns (u: string, authorization: Result<string, JsError>)
      ensures u == url + "api/v0/pages/" + pageId + "/versions/" + versionId + "/annotations"
      ensures authorization == BasicAuthHeader()
    {
      u := CreateUrl(AnnotationsPath(pageId, versionId), None, enc);
      authorization := BasicAuthHeader();
    }
  }
}
