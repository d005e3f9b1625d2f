/** The photo handlers of backend/src/controllers/photoController.ts: the
    upload loop with its fallbacks for every field, and the owner-checked
    delete. The clock, the EXIF reader, the colour extractor, the date
    parser, `path.parse` and the storage service's answers are inputs. */
module PhotoController {
  import opened Common
  import Storage
  import opened BackendDb
  import opened ErrorHandler
  import AlbumController

  const NoFilesSent := HttpError(400, "Envie ao menos uma foto")
  const PhotoNotFound := HttpError(404, "Foto não encontrada")
  const UploadErrorPrefix := "Erro ao fazer upload: "

  /** One file multer received. */
  datatype UploadedFile = UploadedFile(originalName: string, size: nat)

  /** The optional text fields of the upload form, shared by all its files. */
  datatype PhotoFields = PhotoFields(
    acquisitionDate: Option<string>,
    predominantColor: Option<string>,
    title: Option<string>,
    description: Option<string>)

  /** What the outside world contributes while one file is handled: the
      EXIF date, the extracted colour, `new Date()`, `Date.now()` and the
      storage service's error, if it reports one. */
  datatype FileEffects = FileEffects(
    exifDate: Option<int>,
    extractedColor: string,
    now: int,
    millis: nat,
    uploadError: Option<string>)

  /** The pure functions the handler calls: `new Date(text)` (`None` for an
      invalid date), `path.parse(name).name` and `getPublicUrl`. */
  datatype Helpers = Helpers(
    parseDate: string -> Option<int>,
    stem: string -> string,
    publicUrl: string -> string)

  /** The acquisition date: the form's date when it is given and valid,
      else the EXIF date, else now. */
  function AcquisitionDate(requested: Option<string>, parseDate: string -> Option<int>, exif: Option<int>, now: int): (d: int)
    ensures Truthy(requested) && parseDate(requested.value).Some? ==> d == parseDate(requested.value).value
    ensures !(Truthy(requested) && parseDate(requested.value).Some?) && exif.Some? ==> d == exif.value
    ensures !(Truthy(requested) && parseDate(requested.value).Some?) && exif.None? ==> d == now
  {
    var input := if Truthy(requested) then parseDate(requested.value) else None;
    if input.Some? then input.value else if exif.Some? then exif.value else now
  }

  /** `${Date.now()}-${file.originalname}`. */
  function StoredName(millis: nat, originalName: string): string {
    NatToString(millis) + "-" + originalName
  }

  /** An object name tells the clock reading and the original name apart:
      two uploads collide only in the same millisecond with the same name. */
  lemma StoredNameInjective(m1: nat, n1: string, m2: nat, n2: string)
    requires StoredName(m1, n1) == StoredName(m2, n2)
    ensures m1 == m2 && n1 == n2
  {
    var s := StoredName(m1, n1);
    var a, b := NatToString(m1), NatToString(m2);
    assert s == a + "-" + n1 == b + "-" + n2;
    assert |a| == |b| by {
      FirstDash(a, n1);
      FirstDash(b, n2);
    }
    assert a == s[..|a|] == b;
    NatToStringInjective(m1, m2);
    assert n1 == s[|a| + 1..] == n2;
  }

  /** In a decimal number followed by `-`, that `-` is the first one. */
  lemma FirstDash(digits: string, rest: string)
    requires forall i :: 0 <= i < |digits| ==> '0' <= digits[i] <= '9'
    ensures (digits + "-" + rest)[|digits|] == '-'
    ensures forall i :: 0 <= i < |digits| ==> (digits + "-" + rest)[i] != '-'
  {
    assert forall i :: 0 <= i < |digits| ==> (digits + "-" + rest)[i] == digits[i];
  }

  /** The row created for one file. */
  function NewPhoto(id: int, albumId: int, file: UploadedFile, fields: PhotoFields, effects: FileEffects, helpers: Helpers): (p: Photo)
    ensures p.id == id && p.albumId == albumId && p.sizeBytes == file.size
    ensures p.fileName == StoredName(effects.millis, file.originalName) && p.filePath == helpers.publicUrl(p.fileName)
    ensures p.acquisitionDate == AcquisitionDate(fields.acquisitionDate, helpers.parseDate, effects.exifDate, effects.now)
    ensures Truthy(fields.title) ==> p.title == fields.title.value
    ensures !Truthy(fields.title) ==> p.title == helpers.stem(file.originalName)
    ensures Truthy(fields.description) <==> p.description.Some?
    ensures p.description.Some? ==> p.description == fields.description
    ensures Truthy(fields.predominantColor) ==> p.predominantColor == fields.predominantColor.value
    ensures !Truthy(fields.predominantColor) ==> p.predominantColor == effects.extractedColor
  {
    var name := StoredName(effects.millis, file.originalName);
    Photo(id, albumId,
      if Truthy(fields.title) then fields.title.value else helpers.stem(file.originalName),
      if Truthy(fields.description) then fields.description else None,
      name, helpers.publicUrl(name), file.size,
      AcquisitionDate(fields.acquisitionDate, helpers.parseDate, effects.exifDate, effects.now),
      if Truthy(fields.predominantColor) then fields.predominantColor.value else effects.extractedColor)
  }

  lemma ObjectNamesAppend(rows: seq<Photo>, p: Photo)
    ensures ObjectNames(rows + [p]) == ObjectNames(rows) + {p.fileName}
  {
    var all := rows + [p];
    forall x | x in ObjectNames(all) ensures x in ObjectNames(rows) + {p.fileName} {
      var j :| 0 <= j < |all| && all[j].fileName == x;
      if j < |rows| {
        assert rows[j] == all[j];
      }
    }
    forall x | x in ObjectNames(rows) ensures x in ObjectNames(all) {
      var j :| 0 <= j < |rows| && rows[j].fileName == x;
      assert all[j] == rows[j];
    }
    assert all[|rows|] == p;
  }

  /** The file list, with a missing one read as empty. */
  function Listed(files: Option<seq<UploadedFile>>): seq<UploadedFile> {
    if files.Some? then files.value else []
  }

  /** The rows created for the first `n` files, with consecutive ids. */
  function Uploaded(albumId: int, files: seq<UploadedFile>, fields: PhotoFields, effects: seq<FileEffects>,
                    helpers: Helpers, firstId: int, n: nat): (rows: seq<Photo>)
    requires n <= |files| && n <= |effects|
    ensures |rows| == n
  {
    seq(n, j requires 0 <= j < n => NewPhoto(firstId + j, albumId, files[j], fields, effects[j], helpers))
  }

  lemma UploadedStep(albumId: int, files: seq<UploadedFile>, fields: PhotoFields, effects: seq<FileEffects>,
                     helpers: Helpers, firstId: int, n: nat)
    requires n < |files| && n < |effects|
    ensures Uploaded(albumId, files, fields, effects, helpers, firstId, n + 1)
         == Uploaded(albumId, files, fields, effects, helpers, firstId, n)
            + [NewPhoto(firstId + n, albumId, files[n], fields, effects[n], helpers)]
  {
  }

  function ObjectNames(rows: seq<Photo>): set<string> {
    set j | 0 <= j < |rows| :: rows[j].fileName
  }

  /** The request passes the handler's guards: a user, an album of theirs,
      at least one file. */
  predicate Admitted(db: map<int, Album>, user: Option<int>, albumId: int, files: Option<seq<UploadedFile>>) {
    user.Some? && Owns(db, albumId, user.value) && |Listed(files)| > 0
  }

  /** Where an upload request leaves the photo table, the bucket and the id
      counter, from `photos0`, `storage0` and `next0`: the first `n` files
      are uploaded and recorded in order under consecutive ids; either all
      of them were (and the answer lists their rows), or the next one's
      upload was refused and the answer is the 500 error. */
  predicate UploadCommitted(albumId: int, files: seq<UploadedFile>, fields: PhotoFields, effects: seq<FileEffects>,
                            helpers: Helpers, photos0: seq<Photo>, storage0: set<string>, next0: int,
                            photos1: seq<Photo>, storage1: set<string>, next1: int, r: Result<seq<Photo>, Thrown>)
    requires |effects| == |files|
  {
    |photos0| <= |photos1| <= |photos0| + |files|
    && var n := |photos1| - |photos0|;
    var rows := Uploaded(albumId, files, fields, effects, helpers, next0, n);
    photos1 == photos0 + rows && storage1 == storage0 + ObjectNames(rows) && next1 == next0 + n
    && (r.Ok? ==> n == |files| && r.value == rows)
    && (r.Err? ==>
          n < |files|
          && var failure := Storage.UploadFailure(effects[n].uploadError, StoredName(effects[n].millis, files[n].originalName), storage0 + ObjectNames(rows));
          failure.Some? && r.error == HttpError(500, UploadErrorPrefix + failure.value))
  }

  /** `addPhotos`. After the guards (401, 404, 400 for no files) each file
      is uploaded and then recorded, in order; the first refused upload
      ends the request with 500, and the files before it stay uploaded and
      recorded. */
  method AddPhotos(db: Database, user: Option<int>, albumId: int, files: Option<seq<UploadedFile>>,
                   fields: PhotoFields, effects: seq<FileEffects>, helpers: Helpers)
    returns (r: Result<seq<Photo>, Thrown>)
    requires db.Valid()
    requires |effects| == |Listed(files)|
    modifies db`photos, db`storage, db`nextPhotoId
    ensures db.Valid()
    ensures user.None? ==> r == Err(AlbumController.Unauthorized)
    ensures user.Some? && !Owns(db.albums, albumId, user.value) ==> r == Err(AlbumController.AlbumNotFound)
    ensures user.Some? && Owns(db.albums, albumId, user.value) && |Listed(files)| == 0 ==> r == Err(NoFilesSent)
    ensures !Admitted(db.albums, user, albumId, files) ==>
      db.photos == old(db.photos) && db.storage == old(db.storage) && db.nextPhotoId == old(db.nextPhotoId)
    ensures r.Ok? ==> Admitted(db.albums, user, albumId, files)
    ensures Admitted(db.albums, user, albumId, files) ==>
      UploadCommitted(albumId, Listed(files), fields, effects, helpers,
                      old(db.photos), old(db.storage), old(db.nextPhotoId), db.photos, db.storage, db.nextPhotoId, r)
  {
    var userId := AlbumController.GetUserId(user);
    if userId.Err? {
      return Err(userId.error);
    }
    if !Owns(db.albums, albumId, userId.value) {
      return Err(AlbumController.AlbumNotFound);
    }
    if files.None? || |files.value| == 0 {
      return Err(NoFilesSent);
    }
    r := UploadAll(db, albumId, files.value, fields, effects, helpers);
  }

  /** The loop of `addPhotos` over the received files. */
  method UploadAll(db: Database, albumId: int, list: seq<UploadedFile>, fields: PhotoFields,
                   effects: seq<FileEffects>, helpers: Helpers)
    returns (r: Result<seq<Photo>, Thrown>)
    requires db.Valid() && albumId in db.albums
    requires |effects| == |list|
    modifies db`photos, db`storage, db`nextPhotoId
    ensures db.Valid()
    ensures UploadCommitted(albumId, list, fields, effects, helpers,
                            old(db.photos), old(db.storage), old(db.nextPhotoId), db.photos, db.storage, db.nextPhotoId, r)
  {
    ghost var firstId := db.nextPhotoId;
    var results: seq<Photo> := [];
    var i := 0;
    while i < |list|
      invariant 0 <= i <= |list|
      invariant results == Uploaded(albumId, list, fields, effects, helpers, firstId, i)
      invariant db.photos == old(db.photos) + results
      invariant db.storage == old(db.storage) + ObjectNames(results)
      invariant db.nextPhotoId == firstId + i
      invariant db.Valid()
    {
      var failure, created := StoreFile(db, albumId, list[i], fields, effects[i], helpers);
      if failure.Some? {
        return Err(HttpError(500, UploadErrorPrefix + failure.value));
      }
      ObjectNamesAppend(results, created);
      UploadedStep(albumId, list, fields, effects, helpers, firstId, i);
      results := results + [created];
      i := i + 1;
    }
    r := Ok(results);
  }

  /** One turn of the upload loop: the fallbacks, the upload, and on
      success the new row under the next id. A refused upload changes
      nothing. */
  method StoreFile(db: Database, albumId: int, file: UploadedFile, fields: PhotoFields, eff: FileEffects, helpers: Helpers)
    returns (failure: Option<string>, created: Photo)
    requires db.Valid() && albumId in db.albums
    modifies db`photos, db`storage, db`nextPhotoId
    ensures db.Valid()
    ensures failure == Storage.UploadFailure(eff.uploadError, StoredName(eff.millis, file.originalName), old(db.storage))
    ensures failure.Some? ==> db.photos == old(db.photos) && db.storage == old(db.storage) && db.nextPhotoId == old(db.nextPhotoId)
    ensures (failure.None? ==>
      created == NewPhoto(old(db.nextPhotoId), albumId, file, fields, eff, helpers)
      && db.photos == old(db.photos) + [created]
      && db.storage == old(db.storage) + {created.fileName}
      && db.nextPhotoId == old(db.nextPhotoId) + 1)
  {
    var acquisitionDate := AcquisitionDate(fields.acquisitionDate, helpers.parseDate, eff.exifDate, eff.now);
    var predominantColor := if Truthy(fields.predominantColor) then fields.predominantColor.value else eff.extractedColor;
    var title := if Truthy(fields.title) then fields.title.value else helpers.stem(file.originalName);
    var description := if Truthy(fields.description) then fields.description else None;
    var fileName := StoredName(eff.millis, file.originalName);
    failure := Storage.UploadFailure(eff.uploadError, fileName, db.storage);
    created := NewPhoto(db.nextPhotoId, albumId, file, fields, eff, helpers);
    if failure.Some? {
      return;
    }
    db.storage := db.storage + {fileName};
    created := Photo(db.nextPhotoId, albumId, title, description, fileName, helpers.publicUrl(fileName),
                     file.size, acquisitionDate, predominantColor);
    AppendRowKeepsValid(db.photos, db.albums, old(db.storage), db.nextPhotoId, created);
    db.photos := db.photos + [created];
    db.nextPhotoId := db.nextPhotoId + 1;
  }

  /** The photo `photoId` exists and its album belongs to `userId`. */
  predicate OwnsPhoto(albums: map<int, Album>, photos: seq<Photo>, photoId: int, userId: int) {
    var k := FindPhoto(photos, photoId);
    k.Some? && Owns(albums, photos[k.value].albumId, userId)
  }

  /** `deletePhoto`: 404 unless the photo exists and is in one of the
      caller's albums; otherwise the row goes first and then the stored
      object, when the storage service removes it (`removed`), with 204
      (`None`) either way. */
  method DeletePhoto(db: Database, user: Option<int>, photoId: int, removed: bool) returns (failure: Option<Thrown>)
    requires db.Valid()
    modifies db`photos, db`storage
    ensures db.Valid()
    ensures user.None? ==> failure == Some(AlbumController.Unauthorized)
    ensures user.Some? && !OwnsPhoto(db.albums, old(db.photos), photoId, user.value) ==> failure == Some(PhotoNotFound)
    ensures failure.None? <==> user.Some? && OwnsPhoto(db.albums, old(db.photos), photoId, user.value)
    ensures failure.Some? ==> db.photos == old(db.photos) && db.storage == old(db.storage)
    ensures (failure.None? ==>
      var k := FindPhoto(old(db.photos), photoId).value;
      db.photos == Without(old(db.photos), photoId)
      && db.photos == old(db.photos)[..k] + old(db.photos)[k + 1..]
      && db.storage == (if removed then old(db.storage) - {old(db.photos)[k].fileName} else old(db.storage)))
  {
    var userId := AlbumController.GetUserId(user);
    if userId.Err? {
      return Some(userId.error);
    }
    var found := FindPhoto(db.photos, photoId);
    if found.None? || db.albums[db.photos[found.value].albumId].userId != userId.value {
      return Some(PhotoNotFound);
    }
    var k := found.value;
    var photo := db.photos[k];
    WithoutOne(db.photos, k);
    RemoveRowKeepsValid(db.photos, db.albums, db.storage, db.nextPhotoId, k, removed);
    db.photos := Without(db.photos, photoId);
    if removed {
      db.storage := db.storage - {photo.fileName};
    }
    failure := None;
  }
}
