/** The album handlers of backend/src/controllers/albumController.ts over
    the in-memory tables: who may see and change an album, the body
    validation, the delete guard, sharing and the public lookup. A handler
    either answers or throws one of the errors the error middleware turns
    into a response; an error leaves the tables as they were. */
module AlbumController {
  import opened Common
  import opened Ordering
  import opened BackendDb
  import opened ErrorHandler
  import opened Sharing
  import Server

  const Unauthorized := HttpError(401, "Não autorizado")
  const AlbumNotFound := HttpError(404, "Álbum não encontrado")
  const AlbumHasPhotos := HttpError(400, "Não é possível excluir um álbum que contém fotos")
  const PublicAlbumNotFound := HttpError(404, "Álbum não encontrado ou não está público")

  /** `getUserId`, the same in both controllers: the authenticated user's
      id, or 401 when the request carries no user. */
  function GetUserId(user: Option<int>): (r: Result<int, Thrown>)
    ensures r.Ok? <==> user.Some?
    ensures r.Ok? ==> r.value == user.value
    ensures r.Err? ==> r.error == Unauthorized && Handle(r.error) == Response(401, "Não autorizado")
  {
    if user.None? then Err(Unauthorized) else Ok(user.value)
  }

  /** `req.query.sort === "asc" ? "asc" : "desc"`, as "ascending?". */
  function SortAscending(query: Option<string>): bool {
    query == Some("asc")
  }

  /** The two fields of a request body; `None` is a field that is absent. */
  datatype AlbumBody = AlbumBody(title: Option<string>, description: Option<string>)

  const RequiredMessage := "Required"
  const TitleRequired := "Título é obrigatório"
  const DescriptionRequired := "Descrição é obrigatória"

  function FieldIssues(field: Option<string>, tooShort: string): seq<string> {
    if field.None? then [RequiredMessage] else if field.value == "" then [tooShort] else []
  }

  /** The messages of the issues `albumSchema` reports, field by field. */
  function AlbumIssues(body: AlbumBody): seq<string> {
    FieldIssues(body.title, TitleRequired) + FieldIssues(body.description, DescriptionRequired)
  }

  /** The message of the thrown validation error: the issue messages, one
      per line. */
  function IssueText(issues: seq<string>): string {
    Join(issues, '\n')
  }

  /** `albumSchema.parse(req.body)`: both fields present and non-empty, or
      a validation error listing what is wrong. That error is a plain
      `Error`, so the middleware answers it with 500. */
  function ParseAlbumBody(body: AlbumBody): (r: Result<(string, string), Thrown>)
    ensures r.Ok? <==> Truthy(body.title) && Truthy(body.description)
    ensures r.Ok? ==> r.value == (body.title.value, body.description.value)
    ensures r.Err? ==> 1 <= |AlbumIssues(body)| <= 2 && r.error == PlainError(IssueText(AlbumIssues(body)))
    ensures r.Err? ==> Handle(r.error).status == 500
  {
    var issues := AlbumIssues(body);
    if issues == [] then Ok((body.title.value, body.description.value))
    else
      var text := IssueText(issues);
      assert text[0] == issues[0][0] != ImageOnlyMessage[0] by {
        if |issues| > 1 {
          assert text == issues[0] + ['\n'] + Join(issues[1..], '\n');
        }
      }
      Err(PlainError(text))
  }

  /** An album together with its key. */
  datatype StoredAlbum = StoredAlbum(id: int, album: Album)

  /** An album with its photos, as `getAlbum` and `getPublicAlbum` answer. */
  datatype AlbumWithPhotos = AlbumWithPhotos(id: int, album: Album, photos: seq<Photo>)

  function AcquiredAt(p: Photo): int {
    p.acquisitionDate
  }

  /** The photos of album `id`, all of them and no other, ordered by
      acquisition date in the requested direction. */
  predicate ListsPhotosOf(db: seq<Photo>, id: int, photos: seq<Photo>, ascending: bool) {
    multiset(photos) == multiset(PhotosOf(db, id)) && SortedBy(photos, AcquiredAt, ascending)
  }

  /** `createAlbum`: a new private album owned by the caller, under the
      next id. */
  method CreateAlbum(db: Database, user: Option<int>, body: AlbumBody) returns (r: Result<StoredAlbum, Thrown>)
    requires db.Valid()
    modifies db`albums, db`nextAlbumId
    ensures db.Valid()
    ensures user.None? ==> r == Err(Unauthorized)
    ensures user.Some? && ParseAlbumBody(body).Err? ==> r == Err(ParseAlbumBody(body).error)
    ensures r.Ok? <==> user.Some? && Truthy(body.title) && Truthy(body.description)
    ensures r.Err? ==> db.albums == old(db.albums) && db.nextAlbumId == old(db.nextAlbumId)
    ensures r.Ok? ==> (user.Some? && body.title.Some? && body.description.Some?
      && r.value.id == old(db.nextAlbumId) && r.value.id !in old(db.albums)
      && r.value.album == Album(user.value, body.title.value, body.description.value, false, None)
      && db.albums == old(db.albums)[r.value.id := r.value.album]
      && db.nextAlbumId == old(db.nextAlbumId) + 1)
  {
    var userId := GetUserId(user);
    if userId.Err? {
      return Err(userId.error);
    }
    var fields := ParseAlbumBody(body);
    if fields.Err? {
      return Err(fields.error);
    }
    var (title, description) := fields.value;
    var id := db.nextAlbumId;
    var album := Album(userId.value, title, description, false, None);
    db.albums := db.albums[id := album];
    db.nextAlbumId := id + 1;
    r := Ok(StoredAlbum(id, album));
  }

  /** `getAlbum`: the caller's album with its photos, or 404 when there is
      no such album or it belongs to someone else. */
  method GetAlbum(db: Database, user: Option<int>, id: int, sort: Option<string>) returns (r: Result<AlbumWithPhotos, Thrown>)
    ensures user.None? ==> r == Err(Unauthorized)
    ensures user.Some? && !Owns(db.albums, id, user.value) ==> r == Err(AlbumNotFound)
    ensures r.Ok? <==> user.Some? && Owns(db.albums, id, user.value)
    ensures r.Ok? ==> (id in db.albums && r.value.id == id && r.value.album == db.albums[id]
      && ListsPhotosOf(db.photos, id, r.value.photos, sort == Some("asc")))
  {
    var userId := GetUserId(user);
    if userId.Err? {
      return Err(userId.error);
    }
    var ascending := SortAscending(sort);
    if !Owns(db.albums, id, userId.value) {
      return Err(AlbumNotFound);
    }
    r := Ok(AlbumWithPhotos(id, db.albums[id], OrderBy(PhotosOf(db.photos, id), AcquiredAt, ascending)));
  }

  /** `updateAlbum`: the body is validated before the album is looked up;
      only the title and the description change. */
  method UpdateAlbum(db: Database, user: Option<int>, id: int, body: AlbumBody) returns (r: Result<StoredAlbum, Thrown>)
    requires db.Valid()
    modifies db`albums
    ensures db.Valid()
    ensures user.None? ==> r == Err(Unauthorized)
    ensures user.Some? && ParseAlbumBody(body).Err? ==> r == Err(ParseAlbumBody(body).error)
    ensures user.Some? && ParseAlbumBody(body).Ok? && !Owns(old(db.albums), id, user.value) ==> r == Err(AlbumNotFound)
    ensures r.Ok? <==> user.Some? && ParseAlbumBody(body).Ok? && Owns(old(db.albums), id, user.value)
    ensures r.Err? ==> db.albums == old(db.albums)
    ensures r.Ok? ==> (id in old(db.albums) && body.title.Some? && body.description.Some?
      && r.value == StoredAlbum(id, old(db.albums)[id].(title := body.title.value, description := body.description.value))
      && db.albums == old(db.albums)[id := r.value.album])
  {
    var userId := GetUserId(user);
    if userId.Err? {
      return Err(userId.error);
    }
    var fields := ParseAlbumBody(body);
    if fields.Err? {
      return Err(fields.error);
    }
    if !Owns(db.albums, id, userId.value) {
      return Err(AlbumNotFound);
    }
    var (title, description) := fields.value;
    var updated := db.albums[id].(title := title, description := description);
    db.albums := db.albums[id := updated];
    r := Ok(StoredAlbum(id, updated));
  }

  /** `deleteAlbum`: answers 204 (`None`) and removes exactly that album
      when it is the caller's and holds no photo; 400 when it holds one. */
  method DeleteAlbum(db: Database, user: Option<int>, id: int) returns (failure: Option<Thrown>)
    requires db.Valid()
    modifies db`albums
    ensures db.Valid()
    ensures user.None? ==> failure == Some(Unauthorized)
    ensures user.Some? && !Owns(old(db.albums), id, user.value) ==> failure == Some(AlbumNotFound)
    ensures user.Some? && Owns(old(db.albums), id, user.value) && PhotoCount(db.photos, id) > 0 ==> failure == Some(AlbumHasPhotos)
    ensures failure.None? <==> user.Some? && Owns(old(db.albums), id, user.value) && PhotoCount(db.photos, id) == 0
    ensures failure.Some? ==> db.albums == old(db.albums)
    ensures failure.None? ==> db.albums == old(db.albums) - {id}
  {
    var userId := GetUserId(user);
    if userId.Err? {
      return Some(userId.error);
    }
    if !Owns(db.albums, id, userId.value) {
      return Some(AlbumNotFound);
    }
    if PhotoCount(db.photos, id) > 0 {
      return Some(AlbumHasPhotos);
    }
    NoPhotosMeansNoRow(db.photos, id);
    db.albums := db.albums - {id};
    failure := None;
  }

  /** What `crypto.randomBytes(32).toString("hex")` yields: 64 lower-case
      hexadecimal digits. */
  predicate IsFreshToken(t: string) {
    |t| == 64 && forall i :: 0 <= i < |t| ==> ('0' <= t[i] <= '9' || 'a' <= t[i] <= 'f')
  }

  /** The path the share link points at, as the source writes it. */
  function ShareUrlPathAsWritten(token: string): string {
    "/api/public/albums/" + token
  }

  /** The path of the public-album route: the album router's mount point
      followed by the route's own path. */
  function ShareUrlPath(token: string): (path: string)
    ensures Server.IsSegment(token) ==> Server.RouteGet(path) == Server.PublicAlbum(token)
  {
    Server.AlbumsMount + Server.PublicAlbumPath + token
  }

  /** No mounted route serves the written path, whatever the token. */
  lemma ShareUrlAsWrittenHasNoRoute(token: string)
    ensures Server.RouteGet(ShareUrlPathAsWritten(token)) == Server.NoRoute
  {
    var path := ShareUrlPathAsWritten(token);
    assert path[5] == 'p' && (Server.AlbumsMount + Server.PublicAlbumPath)[5] == 'a';
    assert path[5] != Server.AlbumsMount[5];
    assert path[5] != "/api/auth"[5] && path[6] != "/api/photos"[6] && path != "/health";
  }

  /** The link `toggleShareAlbum` answers with: `protocol://host` and the
      path as the source writes it. Whatever the token, it is not the link
      of the public-album route. */
  function ShareUrl(protocol: string, host: string, token: string): (url: string)
    ensures url != protocol + "://" + host + ShareUrlPath(token)
  {
    var origin := protocol + "://" + host;
    assert (origin + ShareUrlPathAsWritten(token))[|origin| + 5] == 'p';
    assert (origin + ShareUrlPath(token))[|origin| + 5] == 'a';
    origin + ShareUrlPathAsWritten(token)
  }

  /** The answer of `toggleShareAlbum`. */
  datatype ShareState = ShareState(isPublic: bool, shareToken: Option<string>, shareUrl: Option<string>)

  /** `toggleShareAlbum`: flips `isPublic` and sets the token as
      `NextShareToken` says; the link exists exactly when a token does, and
      is built on the path as written, which no route serves. */
  method ToggleShareAlbum(db: Database, user: Option<int>, id: int, freshToken: string, protocol: string, host: string)
    returns (r: Result<ShareState, Thrown>)
    requires db.Valid()
    requires IsFreshToken(freshToken)
    modifies db`albums
    ensures db.Valid()
    ensures user.None? ==> r == Err(Unauthorized)
    ensures user.Some? && !Owns(old(db.albums), id, user.value) ==> r == Err(AlbumNotFound)
    ensures r.Ok? <==> user.Some? && Owns(old(db.albums), id, user.value)
    ensures r.Err? ==> db.albums == old(db.albums)
    ensures r.Ok? ==> (id in old(db.albums) && id in db.albums
      && db.albums == old(db.albums)[id := db.albums[id]]
      && db.albums[id] == old(db.albums)[id].(
           isPublic := !old(db.albums)[id].isPublic,
           shareToken := NextShareToken(!old(db.albums)[id].isPublic, old(db.albums)[id].shareToken, freshToken))
      && r.value.isPublic == db.albums[id].isPublic
      && r.value.shareToken == db.albums[id].shareToken
      && (r.value.shareUrl.Some? <==> r.value.shareToken.Some?)
      && (r.value.shareToken.Some? ==>
            r.value.shareUrl == Some(protocol + "://" + host + ShareUrlPathAsWritten(r.value.shareToken.value))))
  {
    var userId := GetUserId(user);
    if userId.Err? {
      return Err(userId.error);
    }
    if !Owns(db.albums, id, userId.value) {
      return Err(AlbumNotFound);
    }
    var album := db.albums[id];
    var shareToken := album.shareToken;
    var isPublic := !album.isPublic;
    if isPublic && !Truthy(shareToken) {
      shareToken := Some(freshToken);
    }
    if !isPublic {
      shareToken := None;
    }
    var updated := album.(isPublic := isPublic, shareToken := shareToken);
    db.albums := db.albums[id := updated];
    var url := if Truthy(shareToken) then Some(ShareUrl(protocol, host, shareToken.value)) else None;
    r := Ok(ShareState(isPublic, shareToken, url));
  }

  /** The album `id` is shared under `token`. */
  predicate SharedUnder(albums: map<int, Album>, id: int, token: string) {
    id in albums && albums[id].isPublic && albums[id].shareToken == Some(token)
  }

  /** The owner's `name` and `email`, the fields the public answer selects
      from the user row. */
  datatype Owner = Owner(name: Option<string>, email: string)

  /** The answer of `getPublicAlbum`: the album row, its photos, and its
      owner's profile. */
  datatype PublicAlbumAnswer = PublicAlbumAnswer(id: int, album: Album, photos: seq<Photo>, user: Owner)

  /** `getPublicAlbum`: a shared album whose token is `token`, with its
      photos and the profile of the user who owns it, or 404; no
      authentication is asked for. `users` is the user table, read through
      the album's required `userId` relation. */
  method GetPublicAlbum(db: Database, users: int -> Owner, token: string, sort: Option<string>)
    returns (r: Result<PublicAlbumAnswer, Thrown>)
    ensures r.Ok? <==> exists id :: SharedUnder(db.albums, id, token)
    ensures r.Err? ==> r.error == PublicAlbumNotFound
    ensures r.Ok? ==> (SharedUnder(db.albums, r.value.id, token) && r.value.album == db.albums[r.value.id]
      && ListsPhotosOf(db.photos, r.value.id, r.value.photos, sort == Some("asc"))
      && r.value.user == users(r.value.album.userId))
  {
    var ascending := SortAscending(sort);
    if id :| id in db.albums && SharedUnder(db.albums, id, token) {
      var album := db.albums[id];
      r := Ok(PublicAlbumAnswer(id, album, OrderBy(PhotosOf(db.photos, id), AcquiredAt, ascending), users(album.userId)));
    } else {
      r := Err(PublicAlbumNotFound);
    }
  }

  /** Only a shared album can be found by token: turning sharing off makes
      the album unreachable under every token. */
  lemma PrivateAlbumsAreHidden(albums: map<int, Album>, id: int, token: string)
    requires id in albums && SharingConsistent(albums[id])
    ensures !albums[id].isPublic ==> !SharedUnder(albums, id, token)
    ensures SharedUnder(albums, id, token) ==> token != ""
  {
  }
}
