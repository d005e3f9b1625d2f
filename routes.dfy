/** The browser routes of the web client (frontend/src/App.tsx), and what
    they make of the links the pages build: the share link the album page
    shows opens the public album, while the one the album service returns
    leads to no page. */
module Routes {
  import opened Common
  import AlbumsService
  import AlbumDetailPage
  import AuthPage

  datatype Page =
    | Landing
    | Login
    | Register
    | PublicAlbum(token: string)
    | AlbumList
    | AlbumDetail(id: string)
    | NoPage

  /** The page a path opens; a `:param` segment matches one non-empty
      segment. */
  function RouteOf(path: string): Page {
    RouteOfSegments(Split(path, '/'))
  }

  /** The page for the slash-separated pieces of a path. */
  function RouteOfSegments(parts: seq<string>): Page {
    if parts == ["", ""] then Landing
    else if parts == ["", "login"] then Login
    else if parts == ["", "register"] then Register
    else if |parts| == 4 && parts[0] == "" && parts[1] == "public" && parts[2] == "album" && parts[3] != "" then
      PublicAlbum(parts[3])
    else if parts == ["", "albums"] then AlbumList
    else if |parts| == 3 && parts[0] == "" && parts[1] == "albums" && parts[2] != "" then AlbumDetail(parts[2])
    else NoPage
  }

  /** The pages behind the sign-in guard. */
  predicate RequiresSignIn(p: Page) {
    p.AlbumList? || p.AlbumDetail?
  }

  /** The share link of the album page opens the public album of its token,
      a page that needs no sign-in. */
  lemma OwnerPageLinkOpensPublicAlbum(origin: string, token: string)
    requires token != "" && '/' !in token
    ensures AlbumDetailPage.ShareUrl(origin, Some(token)) == Some(origin + AlbumDetailPage.PublicAlbumPrefix + token)
    ensures RouteOf(AlbumDetailPage.PublicAlbumPrefix + token) == PublicAlbum(token)
    ensures !RequiresSignIn(RouteOf(AlbumDetailPage.PublicAlbumPrefix + token))
  {
    PublicAlbumSegments(token);
    var parts := ["", "public", "album", token];
    assert |parts| == 4 && parts[1] == "public" && parts[2] == "album" && parts[3] == token;
    assert RouteOfSegments(parts) == PublicAlbum(token);
  }

  lemma PublicAlbumSegments(token: string)
    requires '/' !in token
    ensures Split(AlbumDetailPage.PublicAlbumPrefix + token, '/') == ["", "public", "album", token]
  {
    assert AlbumDetailPage.PublicAlbumPrefix + token == ['/'] + "public" + ['/'] + "album" + ['/'] + token;
    ThreeSegments("public", "album", token);
  }

  /** A path of three segments splits into an empty piece and the three. */
  lemma ThreeSegments(a: string, b: string, c: string)
    requires '/' !in a && '/' !in b && '/' !in c
    ensures Split(['/'] + a + ['/'] + b + ['/'] + c, '/') == ["", a, b, c]
  {
    assert ['/'] + a + ['/'] + b + ['/'] + c == "" + ['/'] + (a + ['/'] + (b + ['/'] + c));
    SplitPiece(c, '/');
    SplitAppend(b, c, '/');
    SplitAppend(a, b + ['/'] + c, '/');
    SplitAppend("", a + ['/'] + (b + ['/'] + c), '/');
  }

  /** The link the album service returns, `origin + "/album/" + token`,
      opens no page, whatever the token. */
  lemma ServiceLinkOpensNoPage(origin: string, token: string)
    ensures AlbumsService.ShareUrl(origin, token) == origin + "/album/" + token
    ensures RouteOf("/album/" + token) == NoPage
  {
    var path := "/album/" + token;
    assert path == "" + ['/'] + ("album" + ['/'] + token);
    SplitAppend("album", token, '/');
    SplitAppend("", "album" + ['/'] + token, '/');
    assert Split(path, '/')[1] == "album";
  }

  /** A slash followed by one segment splits into an empty piece and the
      segment. */
  lemma SlashSegment(p: string)
    requires '/' !in p
    ensures Split(['/'] + p, '/') == ["", p]
  {
    SplitPiece(p, '/');
    SplitAppend("", p, '/');
    assert "" + ['/'] + p == ['/'] + p;
  }

  lemma AlbumListPath(path: string)
    requires path == ['/'] + "albums"
    ensures RouteOf(path) == AlbumList
  {
    SlashSegment("albums");
    assert Split(path, '/') == ["", "albums"];
    assert RouteOfSegments(["", "albums"]) == AlbumList;
  }

  /** Without a page to go back to, signing in lands on the album list. */
  lemma DefaultRedirectIsAlbumList()
    ensures RouteOf(AuthPage.RedirectTarget(None)) == AlbumList
  {
    var path := AuthPage.RedirectTarget(None);
    assert path == ['/'] + "albums";
    AlbumListPath(path);
  }

  /** Signing out goes to the landing page. */
  lemma SignOutLandsOnLanding()
    ensures RouteOf("/") == Landing
  {
    assert "/" == "" + ['/'] + "";
    SplitPiece("", '/');
    SplitAppend("", "", '/');
  }
}
