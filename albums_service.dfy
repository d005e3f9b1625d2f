/** The client-side data service of frontend/src/services/albums.ts, which
    talks to the hosted database and storage directly. The two tables and
    the bucket are held in memory; the signed-in user, the clock,
    `crypto.randomUUID`, the database's row ids, `getPublicUrl` and the
    services' error answers are inputs. */
module AlbumsService {
  import opened Common
  import Storage
  import opened Ordering
  import Sharing

  datatype DbAlbum = DbAlbum(
    userId: string,
    title: string,
    description: string,
    isPublic: bool,
    shareToken: Option<string>,
    updatedAt: string)

  /** A photo row; `acquisitionDate` is the text stored in the column. */
  datatype DbPhoto = DbPhoto(
    id: string,
    albumId: string,
    title: string,
    description: Option<string>,
    fileName: string,
    filePath: string,
    sizeBytes: nat,
    acquisitionDate: string,
    predominantColor: Option<string>)

  /** What a service call throws: an `Error` of its own with a message, or
      an error object returned by the database client and rethrown. */
  datatype Failure = Thrown(message: string) | QueryError

  const NotAuthenticated := Thrown("Não autenticado")
  const AlbumHasPhotos := Thrown("Não é possível excluir um álbum que contém fotos")
  const PhotoNotFound := Thrown("Foto não encontrada")
  const UploadErrorPrefix := "Erro ao fazer upload: "

  predicate OwnedBy(albums: map<string, DbAlbum>, id: string, userId: string) {
    id in albums && albums[id].userId == userId
  }

  /** `.eq("album_id", id)` on the photo table, in table order. */
  function PhotosOf(photos: seq<DbPhoto>, albumId: string): (r: seq<DbPhoto>)
    ensures forall p :: p in r <==> p in photos && p.albumId == albumId
  {
    if photos == [] then []
    else
      assert photos == [photos[0]] + photos[1..];
      (if photos[0].albumId == albumId then [photos[0]] else []) + PhotosOf(photos[1..], albumId)
  }

  /** The first row with id `id`, if any. */
  function FindRow(photos: seq<DbPhoto>, id: string): (r: Option<nat>)
    ensures r.Some? ==> r.value < |photos| && photos[r.value].id == id
    ensures r.None? ==> forall j :: 0 <= j < |photos| ==> photos[j].id != id
  {
    if photos == [] then None
    else if photos[0].id == id then Some(0)
    else match FindRow(photos[1..], id)
      case None => None
      case Some(k) => Some(k + 1)
  }

  /** The photo table after `.delete().eq("id", id)`. */
  function WithoutId(photos: seq<DbPhoto>, id: string): seq<DbPhoto> {
    if photos == [] then []
    else (if photos[0].id == id then [] else [photos[0]]) + WithoutId(photos[1..], id)
  }

  /** Deleting by id keeps exactly the rows with another id. */
  lemma {:induction false} WithoutIdMembers(photos: seq<DbPhoto>, id: string)
    ensures forall p :: p in WithoutId(photos, id) <==> p in photos && p.id != id
  {
    if photos != [] {
      WithoutIdMembers(photos[1..], id);
      assert photos == [photos[0]] + photos[1..];
    }
  }

  /** Row `k` is the only one with its id: what `.eq("id", id).single()`
      needs to answer without an error. */
  predicate OnlyRow(photos: seq<DbPhoto>, k: int) {
    0 <= k < |photos| && forall j :: 0 <= j < |photos| && j != k ==> photos[j].id != photos[k].id
  }

  /** `.eq("id", id).single()`: the position of the one row with that id;
      none when no row or more than one row has it. */
  function SingleRow(photos: seq<DbPhoto>, id: string): (r: Option<nat>)
    ensures r.Some? ==> r.value < |photos| && photos[r.value].id == id && OnlyRow(photos, r.value)
    ensures r.None? ==> forall k :: 0 <= k < |photos| && photos[k].id == id ==> !OnlyRow(photos, k)
  {
    match FindRow(photos, id)
      case None => None
      case Some(k) => if OnlyRow(photos, k) then Some(k) else None
  }

  lemma {:induction false} WithoutIdAbsent(photos: seq<DbPhoto>, id: string)
    requires forall j :: 0 <= j < |photos| ==> photos[j].id != id
    ensures WithoutId(photos, id) == photos
  {
    if photos != [] {
      WithoutIdAbsent(photos[1..], id);
      assert [photos[0]] + photos[1..] == photos;
    }
  }

  /** Deleting by the id of the only row with it removes just that row. */
  lemma {:induction false} WithoutOnlyRow(photos: seq<DbPhoto>, k: nat)
    requires OnlyRow(photos, k)
    ensures WithoutId(photos, photos[k].id) == photos[..k] + photos[k + 1..]
  {
    var id := photos[k].id;
    if k == 0 {
      OnlyRowFirst(photos);
      WithoutIdAbsent(photos[1..], id);
    } else {
      OnlyRowTail(photos, k);
      WithoutOnlyRow(photos[1..], k - 1);
      assert photos[0].id != id;
      assert photos[1..][..k - 1] + photos[1..][k..] == photos[1..k] + photos[k + 1..];
      assert [photos[0]] + photos[1..k] == photos[..k];
    }
  }

  /** No row after the only row with its id has that id. */
  lemma OnlyRowFirst(photos: seq<DbPhoto>)
    requires OnlyRow(photos, 0)
    ensures forall j :: 0 <= j < |photos[1..]| ==> photos[1..][j].id != photos[0].id
  {
    forall j | 0 <= j < |photos[1..]| ensures photos[1..][j].id != photos[0].id {
      assert photos[1..][j] == photos[j + 1];
    }
  }

  /** The only row with its id stays the only one once the first row is
      dropped. */
  lemma OnlyRowTail(photos: seq<DbPhoto>, k: nat)
    requires OnlyRow(photos, k) && k > 0
    ensures OnlyRow(photos[1..], k - 1)
  {
    var tail := photos[1..];
    forall j | 0 <= j < |tail| && j != k - 1 ensures tail[j].id != tail[k - 1].id {
      assert tail[j] == photos[j + 1];
    }
  }

  /** Every photo's object is in the bucket and no two photos share one. */
  predicate TablesValid(albums: map<string, DbAlbum>, photos: seq<DbPhoto>, storage: set<string>) {
    (forall id :: id in albums ==> Sharing.Consistent(albums[id].isPublic, albums[id].shareToken))
    && (forall i :: 0 <= i < |photos| ==> photos[i].fileName in storage)
    && (forall i, j :: 0 <= i < j < |photos| ==> photos[i].fileName != photos[j].fileName)
  }

  /** Removing row `k`, and perhaps its object, keeps the tables valid. */
  lemma RemoveRowKeepsValid(albums: map<string, DbAlbum>, photos: seq<DbPhoto>, storage: set<string>, k: nat, removed: bool)
    requires TablesValid(albums, photos, storage) && k < |photos|
    ensures TablesValid(albums, photos[..k] + photos[k + 1..], if removed then storage - {photos[k].fileName} else storage)
  {
    var rest := photos[..k] + photos[k + 1..];
    assert forall i :: 0 <= i < |rest| ==> rest[i] == photos[if i < k then i else i + 1];
  }

  /** Inserting a row whose object has just been stored under a new name
      keeps the tables valid. */
  lemma AppendRowKeepsValid(albums: map<string, DbAlbum>, photos: seq<DbPhoto>, storage: set<string>, p: DbPhoto)
    requires TablesValid(albums, photos, storage) && p.fileName !in storage
    ensures TablesValid(albums, photos + [p], storage + {p.fileName})
  {
    var all := photos + [p];
    assert forall i :: 0 <= i < |photos| ==> all[i] == photos[i];
  }

  class Tables {
    var albums: map<string, DbAlbum>
    var photos: seq<DbPhoto>
    /** The names of the objects in the bucket. */
    var storage: set<string>

    predicate Valid()
      reads this
    {
      TablesValid(albums, photos, storage)
    }

    constructor (albums0: map<string, DbAlbum>, photos0: seq<DbPhoto>, storage0: set<string>)
      requires TablesValid(albums0, photos0, storage0)
      ensures Valid()
      ensures albums == albums0 && photos == photos0 && storage == storage0
    {
      albums := albums0;
      photos := photos0;
      storage := storage0;
    }
  }

  /** An album with its photos, as the two fetches return it. */
  datatype AlbumView = AlbumView(id: string, album: DbAlbum, photos: seq<DbPhoto>)

  /** The photos of album `id`, all of them and no other, ordered by the
      point in time their acquisition date denotes (`instant`), in the
      requested direction. */
  predicate ListsPhotosOf(table: seq<DbPhoto>, id: string, photos: seq<DbPhoto>, instant: string -> int, ascending: bool) {
    multiset(photos) == multiset(PhotosOf(table, id))
    && SortedBy(photos, (p: DbPhoto) => instant(p.acquisitionDate), ascending)
  }

  /** `fetchAlbum`: the caller's album and its photos. `.single()` answers a
      missing row with an error, so a missing or foreign album is a
      `QueryError`; so is a failed photo query (`photosFail`). */
  method FetchAlbum(t: Tables, user: Option<string>, id: string, sort: string, instant: string -> int, photosFail: bool)
    returns (r: Result<AlbumView, Failure>)
    ensures user.None? ==> r == Err(NotAuthenticated)
    ensures user.Some? && !OwnedBy(t.albums, id, user.value) ==> r == Err(QueryError)
    ensures user.Some? && OwnedBy(t.albums, id, user.value) && photosFail ==> r == Err(QueryError)
    ensures r.Ok? <==> user.Some? && OwnedBy(t.albums, id, user.value) && !photosFail
    ensures r.Ok? ==> (id in t.albums && r.value.id == id && r.value.album == t.albums[id]
      && ListsPhotosOf(t.photos, id, r.value.photos, instant, sort == "asc"))
  {
    if user.None? {
      return Err(NotAuthenticated);
    }
    if !OwnedBy(t.albums, id, user.value) {
      return Err(QueryError);
    }
    if photosFail {
      return Err(QueryError);
    }
    var photos := OrderBy(PhotosOf(t.photos, id), (p: DbPhoto) => instant(p.acquisitionDate), sort == "asc");
    r := Ok(AlbumView(id, t.albums[id], photos));
  }

  /** The albums shared under `token`. */
  function SharedUnder(albums: map<string, DbAlbum>, token: string): set<string> {
    set id | id in albums && albums[id].isPublic && albums[id].shareToken == Some(token)
  }

  /** `fetchPublicAlbum`: no sign-in needed; exactly one shared album must
      carry the token (`.single()`), and a failed photo query is not an
      error: the album comes back without photos. */
  method FetchPublicAlbum(t: Tables, token: string, sort: string, instant: string -> int, photosFail: bool)
    returns (r: Result<AlbumView, Failure>)
    ensures r.Ok? <==> |SharedUnder(t.albums, token)| == 1
    ensures r.Err? ==> r.error == QueryError
    ensures r.Ok? ==> (SharedUnder(t.albums, token) == {r.value.id} && r.value.album == t.albums[r.value.id]
      && r.value.album.isPublic && r.value.album.shareToken == Some(token)
      && (photosFail ==> r.value.photos == [])
      && (!photosFail ==> ListsPhotosOf(t.photos, r.value.id, r.value.photos, instant, sort == "asc")))
  {
    var matching := SharedUnder(t.albums, token);
    if |matching| != 1 {
      return Err(QueryError);
    }
    var id :| id in matching;
    assert matching == {id} by {
      assert |matching - {id}| == 0;
    }
    var photos := if photosFail then [] else OrderBy(PhotosOf(t.photos, id), (p: DbPhoto) => instant(p.acquisitionDate), sort == "asc");
    r := Ok(AlbumView(id, t.albums[id], photos));
  }

  /** `deleteAlbum`. Any photo pointing at the album, whoever owns it,
      blocks the delete. Otherwise the delete matches both the id and the
      owner, so another user's album is silently left alone. */
  method DeleteAlbum(t: Tables, user: Option<string>, id: string) returns (failure: Option<Failure>)
    requires t.Valid()
    modifies t`albums
    ensures t.Valid()
    ensures user.None? ==> failure == Some(NotAuthenticated)
    ensures user.Some? && PhotosOf(t.photos, id) != [] ==> failure == Some(AlbumHasPhotos)
    ensures failure.None? <==> user.Some? && PhotosOf(t.photos, id) == []
    ensures failure.Some? ==> t.albums == old(t.albums)
    ensures failure.None? && OwnedBy(old(t.albums), id, user.value) ==> t.albums == old(t.albums) - {id}
    ensures failure.None? && !OwnedBy(old(t.albums), id, user.value) ==> t.albums == old(t.albums)
  {
    if user.None? {
      return Some(NotAuthenticated);
    }
    var photos := PhotosOf(t.photos, id);
    if |photos| > 0 {
      return Some(AlbumHasPhotos);
    }
    if OwnedBy(t.albums, id, user.value) {
      t.albums := t.albums - {id};
    }
    failure := None;
  }

  /** The link `toggleShareAlbum` returns for a token. */
  function ShareUrl(origin: string, token: string): string {
    origin + "/album/" + token
  }

  /** The answer of `toggleShareAlbum`. */
  datatype ShareState = ShareState(isPublic: bool, shareToken: Option<string>, shareUrl: Option<string>)

  /** `toggleShareAlbum`: flips `is_public`, sets the token as the sharing
      rule says (`uuid` is `crypto.randomUUID()`), stamps `updated_at`, and
      answers with a link under `/album/` exactly when there is a token. A
      missing or foreign album is the fetch's `.single()` error; the update
      can fail too (`updateFails`), and then nothing changes. */
  method ToggleShareAlbum(t: Tables, user: Option<string>, id: string, uuid: string, origin: string, now: string,
                          updateFails: bool)
    returns (r: Result<ShareState, Failure>)
    requires t.Valid()
    requires uuid != ""
    modifies t`albums
    ensures t.Valid()
    ensures user.None? ==> r == Err(NotAuthenticated)
    ensures user.Some? && !OwnedBy(old(t.albums), id, user.value) ==> r == Err(QueryError)
    ensures user.Some? && OwnedBy(old(t.albums), id, user.value) && updateFails ==> r == Err(QueryError)
    ensures r.Ok? <==> user.Some? && OwnedBy(old(t.albums), id, user.value) && !updateFails
    ensures r.Err? ==> t.albums == old(t.albums)
    ensures r.Ok? ==> (id in old(t.albums)
      && var before := old(t.albums)[id];
      var after := before.(isPublic := !before.isPublic,
                           shareToken := Sharing.NextShareToken(!before.isPublic, before.shareToken, uuid),
                           updatedAt := now);
      t.albums == old(t.albums)[id := after]
      && r.value == ShareState(after.isPublic, after.shareToken,
                               if after.shareToken.Some? then Some(ShareUrl(origin, after.shareToken.value)) else None))
  {
    if user.None? {
      return Err(NotAuthenticated);
    }
    if !OwnedBy(t.albums, id, user.value) {
      return Err(QueryError);
    }
    var album := t.albums[id];
    var newIsPublic := !album.isPublic;
    var shareToken := album.shareToken;
    if newIsPublic && !Truthy(shareToken) {
      shareToken := Some(uuid);
    }
    if !newIsPublic {
      shareToken := None;
    }
    if updateFails {
      return Err(QueryError);
    }
    var result := album.(isPublic := newIsPublic, shareToken := shareToken, updatedAt := now);
    t.albums := t.albums[id := result];
    var url := if Truthy(result.shareToken) then Some(ShareUrl(origin, result.shareToken.value)) else None;
    r := Ok(ShareState(result.isPublic, result.shareToken, url));
  }

  /** `/\.[^/.]+$/` matches at `k`: a dot followed, up to the end, by at
      least one character that is neither a dot nor a slash. */
  predicate ExtensionAt(name: string, k: int) {
    0 <= k < |name| - 1 && name[k] == '.'
    && forall j :: k < j < |name| ==> name[j] != '.' && name[j] != '/'
  }

  /** The position of the last dot, if any. */
  function LastDot(s: string): (k: Option<nat>)
    ensures k.Some? ==> k.value < |s| && s[k.value] == '.' && forall j :: k.value < j < |s| ==> s[j] != '.'
    ensures k.None? ==> forall j :: 0 <= j < |s| ==> s[j] != '.'
  {
    if s == [] then None
    else if s[|s| - 1] == '.' then Some(|s| - 1)
    else LastDot(s[..|s| - 1])
  }

  /** `name.replace(/\.[^/.]+$/, "")`: the name without its extension,
      where an extension is what the pattern matches; a name it does not
      match is kept whole. */
  function StripExtension(name: string): (r: string)
    ensures forall k :: ExtensionAt(name, k) ==> r == name[..k]
    ensures (forall k :: 0 <= k < |name| ==> !ExtensionAt(name, k)) ==> r == name
  {
    match LastDot(name)
    case None => name
    case Some(k) =>
      if k + 1 < |name| && forall j :: k < j < |name| ==> name[j] != '/' then
        assert ExtensionAt(name, k);
        assert forall m :: ExtensionAt(name, m) ==> m == k;
        name[..k]
      else
        assert forall m :: 0 <= m < |name| && ExtensionAt(name, m) ==> m == k;
        name
  }

  /** One picked file. */
  datatype LocalFile = LocalFile(name: string, size: nat)

  /** The optional fields of the upload form, shared by all its files. */
  datatype UploadPayload = UploadPayload(
    title: Option<string>,
    description: Option<string>,
    acquisitionDate: Option<string>,
    predominantColor: Option<string>)

  /** What the outside world contributes while one file is handled:
      `Date.now()`, `new Date().toISOString()`, the storage service's error,
      the insert's error, and the id the database gives the new row. */
  datatype FileEffects = FileEffects(
    millis: nat,
    nowIso: string,
    uploadError: Option<string>,
    insertFails: bool,
    rowId: string)

  /** `${user.id}/${albumId}/${Date.now()}-${file.name}`. */
  function ObjectName(userId: string, albumId: string, millis: nat, fileName: string): string {
    userId + "/" + albumId + "/" + NatToString(millis) + "-" + fileName
  }

  /** The row inserted for one file. */
  function NewRow(userId: string, albumId: string, file: LocalFile, payload: UploadPayload, effects: FileEffects,
                  publicUrl: string -> string): (p: DbPhoto)
    ensures p.id == effects.rowId && p.albumId == albumId && p.sizeBytes == file.size
    ensures p.fileName == ObjectName(userId, albumId, effects.millis, file.name) && p.filePath == publicUrl(p.fileName)
    ensures Truthy(payload.acquisitionDate) ==> p.acquisitionDate == payload.acquisitionDate.value
    ensures !Truthy(payload.acquisitionDate) ==> p.acquisitionDate == effects.nowIso
    ensures Truthy(payload.title) ==> p.title == payload.title.value
    ensures !Truthy(payload.title) ==> p.title == StripExtension(file.name)
    ensures p.description.Some? <==> Truthy(payload.description)
    ensures p.description.Some? ==> p.description == payload.description
    ensures p.predominantColor.Some? <==> Truthy(payload.predominantColor)
    ensures p.predominantColor.Some? ==> p.predominantColor == payload.predominantColor
  {
    var name := ObjectName(userId, albumId, effects.millis, file.name);
    DbPhoto(effects.rowId, albumId,
      if Truthy(payload.title) then payload.title.value else StripExtension(file.name),
      if Truthy(payload.description) then payload.description else None,
      name, publicUrl(name), file.size,
      if Truthy(payload.acquisitionDate) then payload.acquisitionDate.value else effects.nowIso,
      if Truthy(payload.predominantColor) then payload.predominantColor else None)
  }

  /** The rows inserted for the first `n` files. */
  function Inserted(userId: string, albumId: string, files: seq<LocalFile>, payload: UploadPayload,
                    effects: seq<FileEffects>, publicUrl: string -> string, n: nat): (rows: seq<DbPhoto>)
    requires n <= |files| && n <= |effects|
    ensures |rows| == n
  {
    seq(n, j requires 0 <= j < n => NewRow(userId, albumId, files[j], payload, effects[j], publicUrl))
  }

  function ObjectNames(rows: seq<DbPhoto>): set<string> {
    set j | 0 <= j < |rows| :: rows[j].fileName
  }

  lemma ObjectNamesAppend(rows: seq<DbPhoto>, p: DbPhoto)
    ensures ObjectNames(rows + [p]) == ObjectNames(rows) + {p.fileName}
  {
    var all := rows + [p];
    forall x | x in ObjectNames(all) ensures x in ObjectNames(rows) + {p.fileName} {
      var j :| 0 <= j < |all| && all[j].fileName == x;
      if j < |rows| {
        assert rows[j] == all[j];
      }
    }
    forall x | x in ObjectNames(rows) ensures x in ObjectNames(all) {
      var j :| 0 <= j < |rows| && rows[j].fileName == x;
      assert all[j] == rows[j];
    }
    assert all[|rows|] == p;
  }

  lemma InsertedStep(userId: string, albumId: string, files: seq<LocalFile>, payload: UploadPayload,
                     effects: seq<FileEffects>, publicUrl: string -> string, n: nat)
    requires n < |files| && n < |effects|
    ensures Inserted(userId, albumId, files, payload, effects, publicUrl, n + 1)
         == Inserted(userId, albumId, files, payload, effects, publicUrl, n)
            + [NewRow(userId, albumId, files[n], payload, effects[n], publicUrl)]
  {
  }

  /** Where an upload leaves the photo table and the bucket, from `photos0`
      and `storage0`: the first `n` files are stored and recorded in order.
      Either all were (and the answer lists their rows), or the next one
      failed: a refused upload throws "Erro ao fazer upload: ..." with
      nothing stored, and a refused insert rethrows the database's error
      and leaves that file's object in the bucket with no row. */
  predicate UploadCommitted(userId: string, albumId: string, files: seq<LocalFile>, payload: UploadPayload,
                            effects: seq<FileEffects>, publicUrl: string -> string,
                            photos0: seq<DbPhoto>, storage0: set<string>, photos1: seq<DbPhoto>, storage1: set<string>,
                            r: Result<seq<DbPhoto>, Failure>)
    requires |effects| == |files|
  {
    |photos0| <= |photos1| <= |photos0| + |files|
    && var n := |photos1| - |photos0|;
    var rows := Inserted(userId, albumId, files, payload, effects, publicUrl, n);
    photos1 == photos0 + rows
    && (r.Ok? ==> n == |files| && r.value == rows && storage1 == storage0 + ObjectNames(rows))
    && (r.Err? ==>
          n < |files|
          && var name := ObjectName(userId, albumId, effects[n].millis, files[n].name);
          var failure := Storage.UploadFailure(effects[n].uploadError, name, storage0 + ObjectNames(rows));
          if failure.Some? then
            r.error == Thrown(UploadErrorPrefix + failure.value) && storage1 == storage0 + ObjectNames(rows)
          else
            effects[n].insertFails && r.error == QueryError && storage1 == storage0 + ObjectNames(rows) + {name})
  }

  /** `uploadPhotos`: after the sign-in check, the loop over the files,
      then `updated_at` of the album is stamped with `now`. Nothing checks
      that the album exists or belongs to the caller. */
  method UploadPhotos(t: Tables, user: Option<string>, albumId: string, files: seq<LocalFile>, payload: UploadPayload,
                      effects: seq<FileEffects>, publicUrl: string -> string, now: string)
    returns (r: Result<seq<DbPhoto>, Failure>)
    requires t.Valid()
    requires |effects| == |files|
    modifies t`photos, t`storage, t`albums
    ensures t.Valid()
    ensures user.None? ==> r == Err(NotAuthenticated)
    ensures user.None? ==> t.photos == old(t.photos) && t.storage == old(t.storage)
    ensures user.Some? ==> UploadCommitted(user.value, albumId, files, payload, effects, publicUrl,
                                           old(t.photos), old(t.storage), t.photos, t.storage, r)
    ensures r.Ok? && albumId in old(t.albums) ==> t.albums == old(t.albums)[albumId := old(t.albums)[albumId].(updatedAt := now)]
    ensures !(r.Ok? && albumId in old(t.albums)) ==> t.albums == old(t.albums)
  {
    if user.None? {
      return Err(NotAuthenticated);
    }
    r := UploadAll(t, user.value, albumId, files, payload, effects, publicUrl);
    if r.Err? {
      return;
    }
    if albumId in t.albums {
      t.albums := t.albums[albumId := t.albums[albumId].(updatedAt := now)];
    }
  }

  /** The loop of `uploadPhotos` over the files. */
  method UploadAll(t: Tables, userId: string, albumId: string, files: seq<LocalFile>, payload: UploadPayload,
                   effects: seq<FileEffects>, publicUrl: string -> string)
    returns (r: Result<seq<DbPhoto>, Failure>)
    requires t.Valid()
    requires |effects| == |files|
    modifies t`photos, t`storage
    ensures t.Valid()
    ensures UploadCommitted(userId, albumId, files, payload, effects, publicUrl,
                            old(t.photos), old(t.storage), t.photos, t.storage, r)
  {
    var results: seq<DbPhoto> := [];
    var i := 0;
    while i < |files|
      invariant 0 <= i <= |files|
      invariant results == Inserted(userId, albumId, files, payload, effects, publicUrl, i)
      invariant t.photos == old(t.photos) + results
      invariant t.storage == old(t.storage) + ObjectNames(results)
      invariant t.Valid()
    {
      var failure, photo := StoreFile(t, userId, albumId, files[i], payload, effects[i], publicUrl);
      if failure.Some? {
        return Err(failure.value);
      }
      ObjectNamesAppend(results, photo);
      InsertedStep(userId, albumId, files, payload, effects, publicUrl, i);
      results := results + [photo];
      i := i + 1;
    }
    r := Ok(results);
  }

  /** One turn of the upload loop: the upload, the defaults, the insert. */
  method StoreFile(t: Tables, userId: string, albumId: string, file: LocalFile, payload: UploadPayload,
                   eff: FileEffects, publicUrl: string -> string)
    returns (failure: Option<Failure>, photo: DbPhoto)
    requires t.Valid()
    modifies t`photos, t`storage
    ensures t.Valid()
    ensures (var name := ObjectName(userId, albumId, eff.millis, file.name);
      var refused := Storage.UploadFailure(eff.uploadError, name, old(t.storage));
      (refused.Some? ==> (failure == Some(Thrown(UploadErrorPrefix + refused.value))
                          && t.photos == old(t.photos) && t.storage == old(t.storage)))
      && (refused.None? && eff.insertFails ==> (failure == Some(QueryError)
                          && t.photos == old(t.photos) && t.storage == old(t.storage) + {name}))
      && (refused.None? && !eff.insertFails ==> (failure.None?
                          && photo == NewRow(userId, albumId, file, payload, eff, publicUrl)
                          && t.photos == old(t.photos) + [photo] && t.storage == old(t.storage) + {name})))
  {
    var fileName := ObjectName(userId, albumId, eff.millis, file.name);
    photo := NewRow(userId, albumId, file, payload, eff, publicUrl);
    var uploadError := Storage.UploadFailure(eff.uploadError, fileName, t.storage);
    if uploadError.Some? {
      return Some(Thrown(UploadErrorPrefix + uploadError.value)), photo;
    }
    t.storage := t.storage + {fileName};
    var acquisitionDate := if Truthy(payload.acquisitionDate) then payload.acquisitionDate.value else eff.nowIso;
    var title := if Truthy(payload.title) then payload.title.value else StripExtension(file.name);
    photo := DbPhoto(eff.rowId, albumId, title,
                     if Truthy(payload.description) then payload.description else None,
                     fileName, publicUrl(fileName), file.size, acquisitionDate,
                     if Truthy(payload.predominantColor) then payload.predominantColor else None);
    if eff.insertFails {
      return Some(QueryError), photo;
    }
    AppendRowKeepsValid(t.albums, t.photos, old(t.storage), photo);
    t.photos := t.photos + [photo];
    failure := None;
  }

  /** `deletePhoto`. The photo is fetched with `.single()` (an error unless
      exactly one row has the id); its album must exist and be the caller's,
      else "Foto não encontrada"; the row is deleted (a failed delete throws
      before storage is touched), and then the object is removed when the
      storage service does so (`removed`), whose answer is not checked. */
  method DeletePhoto(t: Tables, user: Option<string>, id: string, deleteFails: bool, removed: bool)
    returns (failure: Option<Failure>)
    requires t.Valid()
    modifies t`photos, t`storage
    ensures t.Valid()
    ensures user.None? ==> failure == Some(NotAuthenticated)
    ensures user.Some? && SingleRow(old(t.photos), id).None? ==> failure == Some(QueryError)
    ensures (user.Some? && SingleRow(old(t.photos), id).Some? ==>
      var photo := old(t.photos)[SingleRow(old(t.photos), id).value];
      (!OwnedBy(t.albums, photo.albumId, user.value) ==> failure == Some(PhotoNotFound))
      && (OwnedBy(t.albums, photo.albumId, user.value) && deleteFails ==> failure == Some(QueryError))
      && (OwnedBy(t.albums, photo.albumId, user.value) && !deleteFails ==> failure.None?))
    ensures failure.Some? ==> t.photos == old(t.photos) && t.storage == old(t.storage)
    ensures (failure.None? ==>
      var k := SingleRow(old(t.photos), id).value;
      t.photos == WithoutId(old(t.photos), id)
      && t.photos == old(t.photos)[..k] + old(t.photos)[k + 1..]
      && t.storage == (if removed then old(t.storage) - {old(t.photos)[k].fileName} else old(t.storage)))
  {
    if user.None? {
      return Some(NotAuthenticated);
    }
    var found := SingleRow(t.photos, id);
    if found.None? {
      return Some(QueryError);
    }
    var k := found.value;
    var photo := t.photos[k];
    if !OwnedBy(t.albums, photo.albumId, user.value) {
      return Some(PhotoNotFound);
    }
    if deleteFails {
      return Some(QueryError);
    }
    WithoutOnlyRow(t.photos, k);
    RemoveRowKeepsValid(t.albums, t.photos, t.storage, k, removed);
    t.photos := WithoutId(t.photos, id);
    if removed {
      t.storage := t.storage - {photo.fileName};
    }
    failure := None;
  }
}
