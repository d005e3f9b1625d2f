/** The CORS policy of backend/src/server.ts: the allowlist parsed from the
    client-URL setting and the origin callback handed to `cors`; and the
    mounting of the routers, for the GET requests the share links lead to. */
module Server {
  import opened Common

  /** `env.clientUrl.split(",").map((url) => url.trim())`. */
  function AllowedOrigins(clientUrl: string): (origins: seq<string>)
    ensures |origins| == |Split(clientUrl, ',')|
    ensures forall i :: 0 <= i < |origins| ==> origins[i] == Trim(Split(clientUrl, ',')[i])
    ensures forall i :: 0 <= i < |origins| ==> ',' !in origins[i]
    ensures forall i :: 0 <= i < |origins| && origins[i] != "" ==>
      !IsWhitespace(origins[i][0]) && !IsWhitespace(origins[i][|origins[i]| - 1])
  {
    seq(|Split(clientUrl, ',')|, i requires 0 <= i < |Split(clientUrl, ',')| => Trim(Split(clientUrl, ',')[i]))
  }

  /** The verdict of the origin callback. */
  datatype CorsVerdict = Allowed | Rejected(message: string)

  const NotAllowedMessage := "Not allowed by CORS"

  /** `!origin || allowedOrigins.includes(origin)`. A request without an
      Origin header, or with an empty one, is let through. */
  function CheckOrigin(allowed: seq<string>, origin: Option<string>): CorsVerdict {
    if !Truthy(origin) || origin.value in allowed then Allowed else Rejected(NotAllowedMessage)
  }

  /** A non-empty origin is allowed exactly when it equals one trimmed entry
      of the setting, character for character; otherwise it is rejected with
      "Not allowed by CORS". */
  lemma OriginAllowedIffListed(clientUrl: string, origin: string)
    requires origin != ""
    ensures CheckOrigin(AllowedOrigins(clientUrl), Some(origin)) == Allowed
        <==> exists i :: 0 <= i < |Split(clientUrl, ',')| && Trim(Split(clientUrl, ',')[i]) == origin
    ensures CheckOrigin(AllowedOrigins(clientUrl), Some(origin)) != Allowed
        ==> CheckOrigin(AllowedOrigins(clientUrl), Some(origin)) == Rejected(NotAllowedMessage)
  {
    var origins := AllowedOrigins(clientUrl);
    if origin in origins {
      var i :| 0 <= i < |origins| && origins[i] == origin;
      assert Trim(Split(clientUrl, ',')[i]) == origin;
    }
  }

  /** The allowlist has one entry per comma-separated piece, each piece
      with the blanks around it removed; a setting without blanks round
      each URL is read back exactly. */
  lemma AllowlistOfPlainList(urls: seq<string>)
    requires |urls| >= 1
    requires forall i :: 0 <= i < |urls| ==> ',' !in urls[i] && Trim(urls[i]) == urls[i]
    ensures AllowedOrigins(Join(urls, ',')) == urls
  {
    SplitJoin(urls, ',');
  }

  /** A request with no Origin header is always allowed. */
  lemma NoOriginAllowed(clientUrl: string)
    ensures CheckOrigin(AllowedOrigins(clientUrl), None) == Allowed
  {
  }

  /** Where the server sends a GET request, as far as the share links go:
      `/api/albums` mounts the album router, whose first route is
      `/public/albums/:token`; the other mounts and routes are summarised. */
  datatype GetRoute = Health | PublicAlbum(token: string) | AlbumRouter | AuthRouter | PhotoRouter | NoRoute

  predicate StartsWith(s: string, prefix: string) {
    |prefix| <= |s| && s[..|prefix|] == prefix
  }

  /** One path segment: non-empty, without a slash. */
  predicate IsSegment(s: string) {
    s != "" && '/' !in s
  }

  const AlbumsMount := "/api/albums"
  const PublicAlbumPath := "/public/albums/"

  function RouteGet(path: string): GetRoute {
    if path == "/health" then Health
    else if StartsWith(path, AlbumsMount + PublicAlbumPath) && IsSegment(path[|AlbumsMount + PublicAlbumPath|..])
    then PublicAlbum(path[|AlbumsMount + PublicAlbumPath|..])
    else if path == AlbumsMount || StartsWith(path, AlbumsMount + "/") then AlbumRouter
    else if path == "/api/auth" || StartsWith(path, "/api/auth/") then AuthRouter
    else if path == "/api/photos" || StartsWith(path, "/api/photos/") then PhotoRouter
    else NoRoute
  }
}
