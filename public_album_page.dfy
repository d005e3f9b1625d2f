/** The page a share link opens: the photos of the current page, the sort
    selector, the empty state, the pager, and the author line. */
module PublicAlbumPage {
  import opened Common
  import Paging
  import AlbumsService
  import AlbumDetailPage

  const InitialSort := "desc"

  /** `album.user`: the owner's profile, when the answer carries one. */
  datatype Author = Author(name: Option<string>, email: string)

  /** "Por ...": the author's name when it is not empty, else the e-mail;
      no line at all without a profile. */
  function AuthorLabel(user: Option<Author>): (r: Option<string>)
    ensures r.Some? <==> user.Some?
    ensures user.Some? && Truthy(user.value.name) ==> r == user.value.name
    ensures user.Some? && !Truthy(user.value.name) ==> r == Some(user.value.email)
  {
    match user
      case None => None
      case Some(a) => Some(if Truthy(a.name) then a.name.value else a.email)
  }

  /** `paginatedPhotos`, which reads a missing list as an empty one. */
  function PaginatedPhotos(photos: Option<seq<AlbumsService.DbPhoto>>, currentPage: int): (r: seq<AlbumsService.DbPhoto>)
    ensures |r| <= Paging.ItemsPerPage
    ensures photos.None? ==> r == []
  {
    Paging.PageOf(if photos.Some? then photos.value else [], currentPage)
  }

  /** Both pages show the same photos for the same list and page. */
  lemma SameSliceAsOwnerPage(photos: Option<seq<AlbumsService.DbPhoto>>, currentPage: int)
    ensures PaginatedPhotos(photos, currentPage) == AlbumDetailPage.PaginatedPhotos(photos, currentPage)
  {
  }

  /** "Este álbum ainda não possui fotos." */
  predicate EmptyStateShown(photoCount: nat) {
    photoCount == 0
  }

  /** The sort and view controls. */
  predicate ControlsShown(photoCount: nat) {
    photoCount > 0
  }

  /** The photo grid or table is drawn exactly when the empty state is not,
      and the controls come with it; the pager needs a second page. */
  lemma EmptyStateExcludesPhotos(photoCount: nat)
    ensures EmptyStateShown(photoCount) <==> !ControlsShown(photoCount)
    ensures Paging.PagerShown(photoCount) ==> ControlsShown(photoCount)
    ensures Paging.PagerShown(photoCount) <==> Paging.TotalPages(photoCount) > 1
  {
    Paging.PagerShownIffSeveralPages(photoCount);
  }

  class PublicPage {
    var sortOrder: string
    var currentPage: int

    constructor ()
      ensures sortOrder == InitialSort && currentPage == 1
    {
      sortOrder := InitialSort;
      currentPage := 1;
    }

    /** `handleSortChange`: a new order starts again at page 1. */
    method HandleSortChange(order: string)
      modifies this`sortOrder, this`currentPage
      ensures sortOrder == order && currentPage == 1
    {
      sortOrder := order;
      currentPage := 1;
    }

    /** The pager's `onPageChange`. */
    method SetPage(page: int)
      modifies this`currentPage
      ensures currentPage == page
    {
      currentPage := page;
    }
  }
}
