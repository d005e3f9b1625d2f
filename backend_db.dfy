/** The state the Express controllers work on: the ORM's album and photo
    tables, held in memory, and the storage bucket, held as the set of
    object names in it. Ids are the tables' auto-incremented keys. */
module BackendDb {
  import opened Common
  import Sharing

  datatype Album = Album(
    userId: int,
    title: string,
    description: string,
    isPublic: bool,
    shareToken: Option<string>)

  /** A photo row; `acquisitionDate` is a point in time in milliseconds. */
  datatype Photo = Photo(
    id: int,
    albumId: int,
    title: string,
    description: Option<string>,
    fileName: string,
    filePath: string,
    sizeBytes: nat,
    acquisitionDate: int,
    predominantColor: string)

  /** A shared album carries a token that is not empty, and a private one
      carries none. */
  predicate SharingConsistent(a: Album) {
    Sharing.Consistent(a.isPublic, a.shareToken)
  }

  /** The album `id` exists and belongs to `userId`: what
      `findFirst({ where: { id, userId } })` looks for. */
  predicate Owns(albums: map<int, Album>, id: int, userId: int) {
    id in albums && albums[id].userId == userId
  }

  /** `album.photos`: the rows whose `albumId` is `albumId`, in table order. */
  function PhotosOf(photos: seq<Photo>, albumId: int): seq<Photo> {
    if photos == [] then []
    else (if photos[0].albumId == albumId then [photos[0]] else []) + PhotosOf(photos[1..], albumId)
  }

  /** `_count.photos`. */
  function PhotoCount(photos: seq<Photo>, albumId: int): nat {
    |PhotosOf(photos, albumId)|
  }

  /** The table after `photo.delete({ where: { id } })`. */
  function Without(photos: seq<Photo>, id: int): seq<Photo> {
    if photos == [] then []
    else (if photos[0].id == id then [] else [photos[0]]) + Without(photos[1..], id)
  }

  lemma {:induction false} PhotosOfMembers(photos: seq<Photo>, albumId: int)
    ensures forall p :: p in PhotosOf(photos, albumId) <==> p in photos && p.albumId == albumId
  {
    if photos != [] {
      PhotosOfMembers(photos[1..], albumId);
      assert photos == [photos[0]] + photos[1..];
    }
  }

  /** An album has no photos exactly when no row points at it. */
  lemma {:induction false} NoPhotosMeansNoRow(photos: seq<Photo>, albumId: int)
    ensures PhotoCount(photos, albumId) == 0 <==> forall i :: 0 <= i < |photos| ==> photos[i].albumId != albumId
  {
    if photos != [] {
      NoPhotosMeansNoRow(photos[1..], albumId);
      assert forall i :: 1 <= i < |photos| ==> photos[i] == photos[1..][i - 1];
    }
  }

  lemma {:induction false} WithoutMembers(photos: seq<Photo>, id: int)
    ensures forall p :: p in Without(photos, id) <==> p in photos && p.id != id
  {
    if photos != [] {
      WithoutMembers(photos[1..], id);
      assert photos == [photos[0]] + photos[1..];
    }
  }

  /** `photo.findUnique({ where: { id } })`: the position of the row with
      that id, the first one when there are several. */
  function FindPhoto(photos: seq<Photo>, id: int): (r: Option<nat>)
    ensures r.Some? ==> r.value < |photos| && photos[r.value].id == id
    ensures r.Some? ==> forall j :: 0 <= j < r.value ==> photos[j].id != id
    ensures r.None? ==> forall j :: 0 <= j < |photos| ==> photos[j].id != id
  {
    if photos == [] then None
    else if photos[0].id == id then Some(0)
    else match FindPhoto(photos[1..], id)
      case None => None
      case Some(k) => Some(k + 1)
  }

  lemma {:induction false} WithoutAbsent(photos: seq<Photo>, id: int)
    requires forall j :: 0 <= j < |photos| ==> photos[j].id != id
    ensures Without(photos, id) == photos
  {
    if photos != [] {
      WithoutAbsent(photos[1..], id);
      assert [photos[0]] + photos[1..] == photos;
    }
  }

  /** With ids unique, deleting by id removes exactly the one row. */
  lemma {:induction false} WithoutOne(photos: seq<Photo>, k: nat)
    requires k < |photos|
    requires forall j :: 0 <= j < |photos| && j != k ==> photos[j].id != photos[k].id
    ensures Without(photos, photos[k].id) == photos[..k] + photos[k + 1..]
  {
    var id := photos[k].id;
    if k == 0 {
      WithoutAbsent(photos[1..], id);
    } else {
      WithoutOne(photos[1..], k - 1);
      assert photos[1..][..k - 1] + photos[1..][k..] == photos[1..k] + photos[k + 1..];
      assert [photos[0]] + photos[1..k] == photos[..k];
    }
  }

  /** Album ids are positive and below the counter; every album's sharing
      state is consistent. */
  predicate AlbumsValid(albums: map<int, Album>, nextAlbumId: int) {
    forall id :: id in albums ==> 1 <= id < nextAlbumId && SharingConsistent(albums[id])
  }

  /** Every photo belongs to an album, has its own positive id below the
      counter and its own object name, and its object is in the bucket. */
  predicate PhotosValid(photos: seq<Photo>, albums: map<int, Album>, storage: set<string>, nextPhotoId: int) {
    (forall i :: 0 <= i < |photos| ==>
       photos[i].albumId in albums && 1 <= photos[i].id < nextPhotoId && photos[i].fileName in storage)
    && (forall i, j :: 0 <= i < j < |photos| ==>
          photos[i].id != photos[j].id && photos[i].fileName != photos[j].fileName)
  }

  /** Removing one row, and perhaps its object, keeps the photo table valid. */
  lemma RemoveRowKeepsValid(photos: seq<Photo>, albums: map<int, Album>, storage: set<string>, nextPhotoId: int,
                            k: nat, removed: bool)
    requires PhotosValid(photos, albums, storage, nextPhotoId) && k < |photos|
    ensures PhotosValid(photos[..k] + photos[k + 1..], albums,
                        if removed then storage - {photos[k].fileName} else storage, nextPhotoId)
  {
    var rest := photos[..k] + photos[k + 1..];
    assert forall i :: 0 <= i < |rest| ==> rest[i] == photos[if i < k then i else i + 1];
  }

  /** Appending a row with the next id, for an existing album, whose object
      has just been stored under a new name, keeps the table valid. */
  lemma AppendRowKeepsValid(photos: seq<Photo>, albums: map<int, Album>, storage: set<string>, nextPhotoId: int, p: Photo)
    requires PhotosValid(photos, albums, storage, nextPhotoId)
    requires p.albumId in albums && 1 <= p.id == nextPhotoId && p.fileName !in storage
    ensures PhotosValid(photos + [p], albums, storage + {p.fileName}, nextPhotoId + 1)
  {
    var all := photos + [p];
    assert forall i :: 0 <= i < |photos| ==> all[i] == photos[i];
  }

  class Database {
    var albums: map<int, Album>
    var photos: seq<Photo>
    /** The names of the objects in the bucket. */
    var storage: set<string>
    var nextAlbumId: int
    var nextPhotoId: int

    /** What the tables keep: see `AlbumsValid` and `PhotosValid`. */
    predicate Valid()
      reads this
    {
      1 <= nextAlbumId && 1 <= nextPhotoId
      && AlbumsValid(albums, nextAlbumId)
      && PhotosValid(photos, albums, storage, nextPhotoId)
    }

    constructor ()
      ensures Valid()
      ensures albums == map[] && photos == [] && storage == {}
    {
      albums := map[];
      photos := [];
      storage := {};
      nextAlbumId := 1;
      nextPhotoId := 1;
    }
  }
}
