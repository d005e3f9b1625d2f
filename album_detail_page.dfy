/** The owner's album page: which photos the current page shows, the sort
    selector, the share link, the delete button, and the upload dialog's
    list of picked files. */
module AlbumDetailPage {
  import opened Common
  import Paging
  import Cores
  import AlbumsService

  const InitialSort := "desc"
  const PublicAlbumPrefix := "/public/album/"

  /** `album.photos?.length ?? 0`. */
  function PhotoCount(photos: Option<seq<AlbumsService.DbPhoto>>): (n: nat)
    ensures photos.None? ==> n == 0
    ensures photos.Some? ==> n == |photos.value|
  {
    if photos.Some? then |photos.value| else 0
  }

  /** `paginatedPhotos`: nothing without a photo list, otherwise the run of
      at most twelve photos that starts at `(currentPage - 1) * 12`. */
  function PaginatedPhotos(photos: Option<seq<AlbumsService.DbPhoto>>, currentPage: int): (r: seq<AlbumsService.DbPhoto>)
    ensures |r| <= Paging.ItemsPerPage
    ensures photos.None? ==> r == []
    ensures (photos.Some? && currentPage >= 1 ==>
      var start := Paging.Min((currentPage - 1) * Paging.ItemsPerPage, |photos.value|);
      r == photos.value[start..Paging.Min(start + Paging.ItemsPerPage, |photos.value|)])
  {
    if photos.None? then []
    else if currentPage >= 1 then
      Paging.PageOfIsRun(photos.value, currentPage);
      Paging.PageOf(photos.value, currentPage)
    else Paging.PageOf(photos.value, currentPage)
  }

  /** The share link, present exactly when the album has a token. */
  function ShareUrl(origin: string, shareToken: Option<string>): (r: Option<string>)
    ensures r.Some? <==> Truthy(shareToken)
    ensures r.Some? ==> r.value == origin + PublicAlbumPrefix + shareToken.value
  {
    if Truthy(shareToken) then Some(origin + PublicAlbumPrefix + shareToken.value) else None
  }

  /** The album can be deleted from this page only while it is empty. */
  predicate DeleteButtonShown(photoCount: nat) {
    photoCount == 0
  }

  /** The sort and view controls appear once there is a photo. */
  predicate ControlsShown(photoCount: nat) {
    photoCount > 0
  }

  /** The delete button and the sort controls never show together. */
  lemma DeleteAndControlsExclusive(photoCount: nat)
    ensures DeleteButtonShown(photoCount) <==> !ControlsShown(photoCount)
  {
  }

  /** The colour sent with an upload: a typed colour goes through the
      colour converter, an empty or missing one is not sent. */
  function UploadColour(typed: Option<string>): (r: Option<string>)
    ensures r.Some? <==> Truthy(typed)
    ensures r.Some? ==> r.value == Cores.ConvertColor(typed.value)
  {
    if Truthy(typed) then Some(Cores.ConvertColor(typed.value)) else None
  }

  /** A typed colour the validator accepts is sent as `#` and six hex
      digits. */
  lemma AcceptedColourSentAsHex(typed: Option<string>)
    requires Truthy(typed) && Cores.IsValidColor(typed.value)
    ensures UploadColour(typed).Some? && Cores.IsHexColor(UploadColour(typed).value)
  {
    Cores.ValidConvertsToHex(typed.value);
  }

  /** The optional fields of the upload form, as typed. */
  datatype UploadValues = UploadValues(
    title: Option<string>,
    description: Option<string>,
    acquisitionDate: Option<string>,
    predominantColor: Option<string>)

  /** One call of the upload mutation: the picked files and the payload. */
  datatype UploadRequest = UploadRequest(files: seq<AlbumsService.LocalFile>, payload: AlbumsService.UploadPayload)

  function PayloadOf(values: UploadValues): (p: AlbumsService.UploadPayload)
    ensures p.title == values.title && p.description == values.description
    ensures p.acquisitionDate == values.acquisitionDate
    ensures p.predominantColor == UploadColour(values.predominantColor)
  {
    AlbumsService.UploadPayload(values.title, values.description, values.acquisitionDate,
                                UploadColour(values.predominantColor))
  }

  /** The page's state cells, and the uploads it has asked for. */
  class DetailPage {
    var sortOrder: string
    var currentPage: int
    var showUpload: bool
    var selectedFiles: seq<AlbumsService.LocalFile>
    var uploads: seq<UploadRequest>

    constructor ()
      ensures sortOrder == InitialSort && currentPage == 1
      ensures !showUpload && selectedFiles == [] && uploads == []
    {
      sortOrder := InitialSort;
      currentPage := 1;
      showUpload := false;
      selectedFiles := [];
      uploads := [];
    }

    /** `handleSortChange`: a new order starts again at page 1. */
    method HandleSortChange(order: string)
      modifies this`sortOrder, this`currentPage
      ensures sortOrder == order && currentPage == 1
    {
      sortOrder := order;
      currentPage := 1;
    }

    /** The pager's `onPageChange`. */
    method SetPage(page: int)
      modifies this`currentPage
      ensures currentPage == page
    {
      currentPage := page;
    }

    method OpenUpload()
      modifies this`showUpload
      ensures showUpload
    {
      showUpload := true;
    }

    /** `handleFilesSelected`: new picks go after the ones already made. */
    method HandleFilesSelected(files: seq<AlbumsService.LocalFile>)
      modifies this`selectedFiles
      ensures selectedFiles == old(selectedFiles) + files
      ensures selectedFiles[..|old(selectedFiles)|] == old(selectedFiles)
    {
      selectedFiles := selectedFiles + files;
    }

    /** "Limpar seleção". */
    method ClearSelection()
      modifies this`selectedFiles
      ensures selectedFiles == []
    {
      selectedFiles := [];
    }

    /** The upload dialog's close and its cancel button, which do the same. */
    method CloseUpload()
      modifies this`showUpload, this`selectedFiles
      ensures !showUpload && selectedFiles == []
    {
      showUpload := false;
      selectedFiles := [];
    }

    /** The upload form's submit: nothing happens without picked files;
      otherwise one upload of all of them is asked for. */
    method SubmitUpload(values: UploadValues)
      modifies this`uploads
      ensures selectedFiles == [] ==> uploads == old(uploads)
      ensures selectedFiles != [] ==> uploads == old(uploads) + [UploadRequest(selectedFiles, PayloadOf(values))]
    {
      if |selectedFiles| == 0 {
        return;
      }
      uploads := uploads + [UploadRequest(selectedFiles, PayloadOf(values))];
    }

    /** The upload mutation's `onSuccess`. */
    method UploadSucceeded()
      modifies this`showUpload, this`selectedFiles
      ensures !showUpload && selectedFiles == []
    {
      showUpload := false;
      selectedFiles := [];
    }
  }
}
