/** The album list's dialogs: the create modal's open flag, and the delete
    confirmation, which holds the album to delete only when that album has
    no photos. Confirming goes through the dialog's own handler, which
    runs the page's confirm step and then closes. */
module AlbumListPage {
  import opened Common

  /** What the list knows of an album: its id, its title and
      `photo_count`, which may be missing. */
  datatype ListedAlbum = ListedAlbum(id: string, title: string, photoCount: Option<nat>)

  /** `album.photo_count ?? 0`. */
  function PhotoCountOf(album: ListedAlbum): nat {
    if album.photoCount.Some? then album.photoCount.value else 0
  }

  datatype Variant = Danger | Warning

  /** The dialog's title, message and variant. */
  datatype DialogContent = DialogContent(title: string, message: string, variant: Variant)

  const CannotDeleteTitle := "Não é possível excluir"
  const CannotDeleteMessage := "Não é possível excluir um álbum que contém fotos. Remova todas as fotos primeiro."
  const ConfirmTitle := "Excluir álbum?"

  function ConfirmMessage(title: string): string {
    "Tem certeza que deseja excluir o álbum \"" + title + "\"? Esta ação não pode ser desfeita."
  }

  /** With an album attached the dialog asks to confirm, naming it, in the
      danger style; without one it explains that the album has photos, in
      the warning style. */
  function Content(album: Option<ListedAlbum>): (c: DialogContent)
    ensures c.variant == Danger <==> album.Some?
    ensures c.title == ConfirmTitle <==> album.Some?
    ensures album.Some? ==> c.message == ConfirmMessage(album.value.title)
    ensures album.None? ==> c == DialogContent(CannotDeleteTitle, CannotDeleteMessage, Warning)
  {
    match album
      case Some(a) => DialogContent(ConfirmTitle, ConfirmMessage(a.title), Danger)
      case None => DialogContent(CannotDeleteTitle, CannotDeleteMessage, Warning)
  }

  class ListPage {
    /** The create modal. */
    var createOpen: bool
    /** `deleteConfirm.open` and `deleteConfirm.album`. */
    var deleteOpen: bool
    var deleteTarget: Option<ListedAlbum>
    /** The ids handed to the delete mutation, in order. */
    var deleteRequests: seq<string>

    /** An attached album has no photos, and comes with an open dialog. */
    predicate Valid()
      reads this
    {
      deleteTarget.Some? ==> deleteOpen && PhotoCountOf(deleteTarget.value) == 0
    }

    constructor ()
      ensures Valid()
      ensures !createOpen && !deleteOpen && deleteTarget.None? && deleteRequests == []
    {
      createOpen := false;
      deleteOpen := false;
      deleteTarget := None;
      deleteRequests := [];
    }

    method OpenCreate()
      modifies this`createOpen
      ensures createOpen
    {
      createOpen := true;
    }

    /** The create modal's close and cancel, and the create mutation's
      `onSuccess`. */
    method CloseCreate()
      modifies this`createOpen
      ensures !createOpen
    {
      createOpen := false;
    }

    /** `handleDelete`: the dialog opens either way; it holds the album only
      when the album has no photos. */
    method HandleDelete(album: ListedAlbum)
      requires Valid()
      modifies this`deleteOpen, this`deleteTarget
      ensures Valid()
      ensures deleteOpen
      ensures PhotoCountOf(album) > 0 ==> deleteTarget.None?
      ensures PhotoCountOf(album) == 0 ==> deleteTarget == Some(album)
    {
      if PhotoCountOf(album) > 0 {
        deleteOpen, deleteTarget := true, None;
        return;
      }
      deleteOpen, deleteTarget := true, Some(album);
    }

    /** `confirmDelete`: a delete is asked for only when an album is
      attached. */
    method ConfirmDelete()
      requires Valid()
      modifies this`deleteRequests
      ensures Valid()
      ensures old(deleteTarget).None? ==> deleteRequests == old(deleteRequests)
      ensures old(deleteTarget).Some? ==> deleteRequests == old(deleteRequests) + [old(deleteTarget).value.id]
    {
      if deleteTarget.Some? {
        deleteRequests := deleteRequests + [deleteTarget.value.id];
      }
    }

    /** The dialog's close, and the delete mutation's `onSuccess`. */
    method CloseDelete()
      modifies this`deleteOpen, this`deleteTarget
      ensures Valid()
      ensures !deleteOpen && deleteTarget.None?
    {
      deleteOpen, deleteTarget := false, None;
    }

    /** The dialog's confirm button: the confirm step, then close. Whatever
      was asked for, the dialog ends closed and empty, and the only album
      ever sent for deletion is one without photos. */
    method PressConfirm()
      requires Valid()
      modifies this`deleteOpen, this`deleteTarget, this`deleteRequests
      ensures Valid()
      ensures !deleteOpen && deleteTarget.None?
      ensures old(deleteTarget).None? ==> deleteRequests == old(deleteRequests)
      ensures (old(deleteTarget).Some? ==>
        deleteRequests == old(deleteRequests) + [old(deleteTarget).value.id]
        && PhotoCountOf(old(deleteTarget).value) == 0)
    {
      ConfirmDelete();
      CloseDelete();
    }
  }
}
