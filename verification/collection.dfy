/** The collection list state (state/collection_state.py): the delete-confirmation modal, the new
    collection form with its alert, and loading, deleting and creating collections. The database
    is an oracle, and so is `lang.tr_str`. */
module Collection {
  import opened Wrappers
  import opened Strs
  import opened I18n
  import Auth

  const EmptyNameKey := "collection_name_empty_error"
  const CreateSuccessKey := "collection_create_success"

  datatype View = View(
    collections: seq<map<string, string>>,
    isLoading: bool,
    showAlert: bool,
    alertMessage: string,
    alertMessageKey: string,
    showConfirmModal: bool,
    collectionIdToDelete: Option<string>,
    newCollectionName: string)

  /** `set_show_confirm_modal`: closing the modal forgets the collection chosen for deletion. */
  function SetModal(v: View, open: bool): View {
    v.(showConfirmModal := open, collectionIdToDelete := if open then v.collectionIdToDelete else None)
  }

  /** `show_confirm` */
  function ShowConfirm(v: View, id: string): View {
    SetModal(v.(collectionIdToDelete := Some(id)), true)
  }

  /** `cancel_delete` */
  function CancelDelete(v: View): View {
    SetModal(v, false)
  }

  /** `confirm_delete`: the modal closes and the chosen id is forgotten before anything else; with
      no id that is all. Otherwise the id is deleted: success reloads the list, a failure shows the
      failure text followed by the error. Returns the new state, the id sent for deletion, and
      whether the list is reloaded. */
  function ConfirmDelete(v: View, remove: string -> Outcome, tr: Translator): (View, Option<string>, bool) {
    var closed := SetModal(v, false);
    match v.collectionIdToDelete
    case None => (closed, None, false)
    case Some(id) =>
      match remove(id)
      case Pass => (closed, Some(id), true)
      case Fail(e) =>
        (closed.(alertMessage := tr("collection_delete_fail", map[]) + ": " + e, showAlert := true), Some(id), false)
  }

  lemma ModalSpec(v: View, id: string, open: bool)
    ensures SetModal(v, open).showConfirmModal == open
    ensures !open ==> SetModal(v, open).collectionIdToDelete.None?
    ensures open ==> SetModal(v, open) == v.(showConfirmModal := true)
    ensures ShowConfirm(v, id).showConfirmModal && ShowConfirm(v, id).collectionIdToDelete == Some(id)
    ensures CancelDelete(ShowConfirm(v, id)) == v.(showConfirmModal := false, collectionIdToDelete := None)
  {
  }

  /** Confirming always closes the modal and forgets the id; exactly the chosen id is deleted. */
  lemma ConfirmDeleteSpec(v: View, remove: string -> Outcome, tr: Translator)
    ensures var (w, sent, reload) := ConfirmDelete(v, remove, tr);
      && !w.showConfirmModal && w.collectionIdToDelete.None?
      && sent == v.collectionIdToDelete
      && (reload <==> sent.Some? && remove(sent.value).Pass?)
      && (w.showAlert != v.showAlert || w.alertMessage != v.alertMessage ==> sent.Some? && remove(sent.value).Fail?)
      && w.collections == v.collections && w.newCollectionName == v.newCollectionName
  {
  }

  /** Choosing a collection and confirming deletes that collection. */
  lemma ShowThenConfirm(v: View, id: string, remove: string -> Outcome, tr: Translator)
    ensures ConfirmDelete(ShowConfirm(v, id), remove, tr).1 == Some(id)
  {
  }

  /** `delete_collection`: success shows the success text and reloads; failure shows the failure
      text with the error; loading ends either way. */
  function DeleteCollection(v: View, id: string, remove: string -> Outcome, tr: Translator): (View, bool) {
    match remove(id)
    case Pass => (v.(alertMessage := tr("collection_delete_success", map[]), showAlert := true, isLoading := false), true)
    case Fail(e) =>
      (v.(alertMessage := tr("collection_delete_fail", map[]) + ": " + e, showAlert := true, isLoading := false), false)
  }

  lemma DeleteCollectionSpec(v: View, id: string, remove: string -> Outcome, tr: Translator)
    ensures var (w, reload) := DeleteCollection(v, id, remove, tr);
      && !w.isLoading && w.showAlert && (reload <==> remove(id).Pass?)
      && w.collections == v.collections
  {
  }

  /** `load_collections`: without a signed-in user nothing is loaded; otherwise the user's
      collections replace the list, or the loading-failure text is shown. Loading ends either way. */
  function LoadCollections(v: View, user: Option<Auth.User>, fetch: string -> Result<seq<map<string, string>>>, tr: Translator): View {
    if user.None? then v.(isLoading := false)
    else
      match fetch(user.value.id)
      case Ok(data) => v.(collections := data, isLoading := false)
      case Err(e) =>
        v.(alertMessage := tr("doc_loading_failed", map["error" := "collections"]) + ": " + e, showAlert := true, isLoading := false)
  }

  lemma LoadCollectionsSpec(v: View, user: Option<Auth.User>, fetch: string -> Result<seq<map<string, string>>>, tr: Translator)
    ensures var w := LoadCollections(v, user, fetch, tr);
      && !w.isLoading
      && (user.Some? && fetch(user.value.id).Ok? ==>
            w.collections == fetch(user.value.id).value && w.showAlert == v.showAlert && w.alertMessage == v.alertMessage)
      && (user.Some? && fetch(user.value.id).Err? ==> w.showAlert && w.collections == v.collections)
      && (user.None? ==> w == v.(isLoading := false))
      && (w.collections != v.collections ==> user.Some? && fetch(user.value.id).Ok?)
  {
  }

  /** `create_collection`. A blank name shows the empty-name alert by key and does nothing else
      (loading is not touched). Otherwise the collection is inserted under the signed-in user's id;
      success clears the name and shows the success key, and reloads; a missing user or a failed
      insert clears the key and shows the failure text with the error. Loading ends either way.
      Returns the new state, the insert sent (name and owner), and whether the list is reloaded. */
  function CreateCollection(v: View, user: Option<Auth.User>, insert: (string, string) -> Outcome, tr: Translator)
    : (View, Option<(string, string)>, bool)
  {
    if IsBlank(v.newCollectionName) then
      (v.(alertMessageKey := EmptyNameKey, alertMessage := "", showAlert := true), None, false)
    else
      var failed := (e: string) =>
        v.(alertMessageKey := "", alertMessage := tr("collection_create_fail", map[]) + " " + e, showAlert := true, isLoading := false);
      if user.None? then (failed(tr("user_not_found", map[])), None, false)
      else
        var request := (v.newCollectionName, user.value.id);
        match insert(request.0, request.1)
        case Pass =>
          (v.(newCollectionName := "", alertMessageKey := CreateSuccessKey, alertMessage := "", showAlert := true, isLoading := false),
           Some(request), true)
        case Fail(e) => (failed(e), Some(request), false)
  }

  lemma CreateCollectionSpec(v: View, user: Option<Auth.User>, insert: (string, string) -> Outcome, tr: Translator)
    ensures var (w, sent, reload) := CreateCollection(v, user, insert, tr);
      && w.showAlert
      && (IsBlank(v.newCollectionName) ==>
            sent.None? && !reload && w.alertMessageKey == EmptyNameKey && w.isLoading == v.isLoading
            && w.newCollectionName == v.newCollectionName)
      && (!IsBlank(v.newCollectionName) ==> !w.isLoading)
      && (sent.Some? ==> user.Some? && sent.value == (v.newCollectionName, user.value.id))
      && (reload <==> w.alertMessageKey == CreateSuccessKey)
      && (reload <==> sent.Some? && insert(sent.value.0, sent.value.1).Pass?)
      && (reload ==> w.newCollectionName == "" && w.alertMessage == "")
      && (!reload && !IsBlank(v.newCollectionName) ==> w.alertMessageKey == "" && w.newCollectionName == v.newCollectionName)
      && w.collections == v.collections
  {
  }

  class CollectionState {
    var collections: seq<map<string, string>>
    var isLoading: bool
    var showAlert: bool
    var alertMessage: string
    var alertMessageKey: string
    var showConfirmModal: bool
    var collectionIdToDelete: Option<string>
    var newCollectionName: string

    constructor()
      ensures Snapshot() == View([], false, false, "", "", false, None, "")
    {
      collections, isLoading, showAlert, alertMessage := [], false, false, "";
      alertMessageKey, showConfirmModal, collectionIdToDelete, newCollectionName := "", false, None, "";
    }

    function Snapshot(): View
      reads this
    {
      View(collections, isLoading, showAlert, alertMessage, alertMessageKey, showConfirmModal, collectionIdToDelete, newCollectionName)
    }

    method SetNewCollectionName(value: string)
      modifies this
      ensures Snapshot() == old(Snapshot()).(newCollectionName := value)
    {
      newCollectionName := value;
    }

    method SetShowConfirmModal(open: bool)
      modifies this
      ensures Snapshot() == SetModal(old(Snapshot()), open)
    {
      showConfirmModal := open;
      if !open {
        collectionIdToDelete := None;
      }
    }

    method ShowConfirmHandler(id: string)
      modifies this
      ensures Snapshot() == ShowConfirm(old(Snapshot()), id)
    {
      collectionIdToDelete := Some(id);
      SetShowConfirmModal(true);
    }

    method CancelDeleteHandler()
      modifies this
      ensures Snapshot() == CancelDelete(old(Snapshot()))
    {
      SetShowConfirmModal(false);
    }

    method ConfirmDeleteHandler(remove: string -> Outcome, tr: Translator) returns (sent: Option<string>, reload: bool)
      modifies this
      ensures (Snapshot(), sent, reload) == ConfirmDelete(old(Snapshot()), remove, tr)
    {
      var id := collectionIdToDelete;
      SetShowConfirmModal(false);
      if id.None? {
        return None, false;
      }
      sent := id;
      match remove(id.value) {
        case Pass =>
          reload := true;
        case Fail(e) =>
          alertMessage := tr("collection_delete_fail", map[]) + ": " + e;
          showAlert := true;
          reload := false;
      }
    }

    method DeleteCollectionHandler(id: string, remove: string -> Outcome, tr: Translator) returns (reload: bool)
      modifies this
      ensures (Snapshot(), reload) == DeleteCollection(old(Snapshot()), id, remove, tr)
    {
      isLoading := true;
      match remove(id) {
        case Pass =>
          alertMessage := tr("collection_delete_success", map[]);
          showAlert := true;
          reload := true;
        case Fail(e) =>
          alertMessage := tr("collection_delete_fail", map[]) + ": " + e;
          showAlert := true;
          reload := false;
      }
      isLoading := false;
    }

    method LoadCollectionsHandler(user: Option<Auth.User>, fetch: string -> Result<seq<map<string, string>>>, tr: Translator)
      modifies this
      ensures Snapshot() == LoadCollections(old(Snapshot()), user, fetch, tr)
    {
      isLoading := true;
      if user.None? {
        isLoading := false;
        return;
      }
      match fetch(user.value.id) {
        case Ok(data) =>
          collections := data;
        case Err(e) =>
          alertMessage := tr("doc_loading_failed", map["error" := "collections"]) + ": " + e;
          showAlert := true;
      }
      isLoading := false;
    }

    method CreateCollectionHandler(user: Option<Auth.User>, insert: (string, string) -> Outcome, tr: Translator)
      returns (sent: Option<(string, string)>, reload: bool)
      modifies this
      ensures (Snapshot(), sent, reload) == CreateCollection(old(Snapshot()), user, insert, tr)
    {
      StripEmptyIffBlank(newCollectionName);
      if Strip(newCollectionName) == "" {
        alertMessageKey := EmptyNameKey;
        alertMessage := "";
        showAlert := true;
        return None, false;
      }
      isLoading := true;
      sent, reload := None, false;
      var error: string;
      if user.None? {
        error := tr("user_not_found", map[]);
      } else {
        sent := Some((newCollectionName, user.value.id));
        match insert(newCollectionName, user.value.id) {
          case Pass =>
            newCollectionName := "";
            alertMessageKey := CreateSuccessKey;
            alertMessage := "";
            showAlert := true;
            reload := true;
            isLoading := false;
            return;
          case Fail(e) =>
            error := e;
        }
      }
      alertMessageKey := "";
      alertMessage := tr("collection_create_fail", map[]) + " " + error;
      showAlert := true;
      isLoading := false;
    }
  }
}
