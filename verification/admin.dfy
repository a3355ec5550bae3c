/** The administration state (state/admin_state.py): the admin check against the `ADMIN_EMAILS`
    allow-list, the user editor and its fields, the requests `save_user` sends, and the board
    payload `create_board` builds. The database and the admin API are oracles. */
module Admin {
  import opened Wrappers
  import opened Strs
  import Auth

  /** `{e.strip().lower() for e in ADMIN_EMAILS.split(",") if e.strip()}` (case mapping on ASCII). */
  function AllowList(adminEmails: string): set<string> {
    set e | e in Split(adminEmails, ',') && Strip(e) != "" :: Lower(Strip(e))
  }

  /** `_require_admin`: no sign-in or no user is never admin; an empty allow-list admits every
      signed-in user; otherwise the user's email, lower-cased, must be listed. */
  function RequireAdmin(isAuthenticated: bool, user: Option<Auth.User>, adminEmails: string): bool {
    if !isAuthenticated || user.None? then false
    else
      var allow := AllowList(adminEmails);
      if allow == {} then true else Lower(user.value.email) in allow
  }

  lemma RequireAdminSpec(isAuthenticated: bool, user: Option<Auth.User>, adminEmails: string)
    ensures !isAuthenticated || user.None? ==> !RequireAdmin(isAuthenticated, user, adminEmails)
    ensures isAuthenticated && user.Some? && AllowList(adminEmails) == {} ==>
      RequireAdmin(isAuthenticated, user, adminEmails)
    ensures isAuthenticated && user.Some? && AllowList(adminEmails) != {} ==>
      (RequireAdmin(isAuthenticated, user, adminEmails) <==> Lower(user.value.email) in AllowList(adminEmails))
  {
  }

  /** Lower-casing keeps whitespace and non-whitespace apart, and never makes a comma. */
  lemma LowerCharSpec(c: char)
    ensures IsSpace(LowerChar(c)) <==> IsSpace(c)
    ensures LowerChar(c) == ',' <==> c == ','
    ensures !('A' <= LowerChar(c) <= 'Z')
  {
  }

  /** Every allow-list entry is non-empty, has no surrounding whitespace, no comma and no ASCII
      capital. */
  lemma AllowListEntries(adminEmails: string, x: string)
    requires x in AllowList(adminEmails)
    ensures x != "" && IsStripped(x) && ',' !in x
    ensures forall i :: 0 <= i < |x| ==> !('A' <= x[i] <= 'Z')
  {
    var e :| e in Split(adminEmails, ',') && Strip(e) != "" && Lower(Strip(e)) == x;
    var t := Strip(e);
    StripIsStripped(e);
    LowerCharSpec(t[0]);
    LowerCharSpec(t[|t| - 1]);
    StripIsSlice(e);
    forall i | 0 <= i < |x| ensures x[i] != ',' && !('A' <= x[i] <= 'Z') {
      LowerCharSpec(t[i]);
      assert t[i] in e;
    }
  }

  /** The allow-list of a comma-joined list of entries is their trimmed, lower-cased non-blank
      members. */
  lemma AllowListOfJoin(entries: seq<string>)
    requires |entries| >= 1 && forall k :: 0 <= k < |entries| ==> ',' !in entries[k]
    ensures AllowList(Join(entries, ",")) == set e | e in entries && Strip(e) != "" :: Lower(Strip(e))
  {
    SplitJoin(entries, ',');
  }

  /** Admission ignores ASCII case in the user's email. */
  lemma RequireAdminIgnoresCase(u: Auth.User, w: Auth.User, adminEmails: string)
    requires Lower(u.email) == Lower(w.email)
    ensures RequireAdmin(true, Some(u), adminEmails) == RequireAdmin(true, Some(w), adminEmails)
  {
  }

  /** A signed-in user whose email is listed, in any ASCII case and with any surrounding
      whitespace, is admitted. */
  lemma RequireAdminListed(u: Auth.User, entries: seq<string>, k: nat)
    requires |entries| >= 1 && forall j :: 0 <= j < |entries| ==> ',' !in entries[j]
    requires k < |entries| && Strip(entries[k]) != "" && Lower(Strip(entries[k])) == Lower(u.email)
    ensures RequireAdmin(true, Some(u), Join(entries, ","))
  {
    AllowListOfJoin(entries);
    assert entries[k] in entries;
    assert Lower(u.email) in AllowList(Join(entries, ","));
  }

  /** `m.get(k) or ""` for a record whose missing and null values are left out. */
  function Field(m: map<string, string>, k: string): string {
    if k in m then m[k] else ""
  }

  /** The first listed user whose `id` is the given one. */
  function FindUser(users: seq<map<string, string>>, id: string): (r: Option<map<string, string>>) {
    if users == [] then None
    else if "id" in users[0] && users[0]["id"] == id then Some(users[0])
    else FindUser(users[1..], id)
  }

  lemma {:induction false} FindUserSpec(users: seq<map<string, string>>, id: string)
    ensures FindUser(users, id).None? <==> forall k :: 0 <= k < |users| ==> !("id" in users[k] && users[k]["id"] == id)
    ensures FindUser(users, id).Some? ==>
      exists k :: (0 <= k < |users| && users[k] == FindUser(users, id).value
                   && "id" in users[k] && users[k]["id"] == id
                   && forall j :: 0 <= j < k ==> !("id" in users[j] && users[j]["id"] == id))
  {
    if users != [] && !("id" in users[0] && users[0]["id"] == id) {
      FindUserSpec(users[1..], id);
      if FindUser(users, id).Some? {
        var k :| 0 <= k < |users[1..]| && users[1..][k] == FindUser(users[1..], id).value
          && "id" in users[1..][k] && users[1..][k]["id"] == id
          && forall j :: 0 <= j < k ==> !("id" in users[1..][j] && users[1..][j]["id"] == id);
        assert users[k + 1] == users[1..][k];
        forall j | 0 <= j < k + 1 ensures !("id" in users[j] && users[j]["id"] == id) {
          if j > 0 { assert users[j] == users[1..][j - 1]; }
        }
      }
    } else if users != [] {
      assert users[0] == FindUser(users, id).value;
    }
  }

  /** A write sent to the identity service or the database. */
  datatype Request =
    | UpdateEmail(userId: string, email: string)
    | UpsertProfile(id: string, username: Option<string>, fullName: Option<string>, avatarUrl: Option<string>)
    | InsertBoard(payload: BoardPayload)

  /** What the admin handlers hold in `svc`. `Client` is a service client: its writes may raise,
      and its profile read gives the row's data, or nothing when the read raised or found none.
      `Coroutine` is what `self.admin_client()` gives in `open_user_editor`, `save_user`,
      `create_board` and `delete_board`: `admin_client` is `async def` (state/base.py) and is
      called there without `await`. A coroutine object is truthy, so neither
      `or self.supabase_client` nor `if not svc` replaces it, and it has neither `auth` nor
      `from_`: looking either up raises `AttributeError` before any request is made. */
  datatype AdminHandle =
    | Client(write: Request -> Outcome, profile: string -> Option<map<string, string>>)
    | Coroutine

  /** The handle the four handlers get as written. */
  const AsWrittenHandle := Coroutine

  /** The writes made through a handle: a client makes them in order up to and including the
      first that raises; a coroutine makes none. */
  function SentThrough(h: AdminHandle, requests: seq<Request>): (sent: seq<Request>)
    ensures h.Coroutine? ==> sent == []
    ensures sent <= requests
  {
    match h
    case Coroutine => []
    case Client(write, _) =>
      AttemptedPrefix(requests, write);
      Attempted(requests, write)
  }

  /** Whether the writes through a handle all went through: never on a coroutine, whose attribute
      lookup raises first. */
  predicate AllPass(h: AdminHandle, requests: seq<Request>) {
    h.Client? && forall k :: 0 <= k < |requests| ==> h.write(requests[k]).Pass?
  }

  /** The profile data `open_user_editor` ends up with: `prof.data or {}` from a client, and the
      empty dict when the lookup raised, which a coroutine always does. */
  function ProfileOf(h: AdminHandle, userId: string): (meta: map<string, string>)
    ensures h.Coroutine? ==> meta == map[]
  {
    match h
    case Coroutine => map[]
    case Client(_, profile) => profile(userId).GetOr(map[])
  }

  /** `v or None` for a text field. */
  function NoneIfEmpty(s: string): Option<string> {
    if s == "" then None else Some(s)
  }

  datatype View = View(
    allUsers: seq<map<string, string>>,
    editorOpen: bool,
    editUserId: string,
    editEmail: string,
    editUsername: string,
    editFullName: string,
    editAvatarUrl: string,
    boards: seq<map<string, string>>,
    isLoadingBoards: bool)

  /** The writes `save_user` issues, in order: the email change when there is an email, then the
      profile upsert with empty fields sent as null. */
  function SaveRequests(v: View): seq<Request> {
    (if v.editEmail != "" then [UpdateEmail(v.editUserId, v.editEmail)] else [])
    + [UpsertProfile(v.editUserId, NoneIfEmpty(v.editUsername), NoneIfEmpty(v.editFullName), NoneIfEmpty(v.editAvatarUrl))]
  }

  lemma SaveRequestsSpec(v: View)
    ensures var r := SaveRequests(v);
      && |r| == (if v.editEmail == "" then 1 else 2)
      && (v.editEmail != "" <==> UpdateEmail(v.editUserId, v.editEmail) in r)
      && r[|r| - 1].UpsertProfile? && r[|r| - 1].id == v.editUserId
      && (r[|r| - 1].username.None? <==> v.editUsername == "")
      && (r[|r| - 1].fullName.None? <==> v.editFullName == "")
      && (r[|r| - 1].avatarUrl.None? <==> v.editAvatarUrl == "")
      && (r[|r| - 1].username.Some? ==> r[|r| - 1].username.value == v.editUsername)
  {
  }

  /** The requests actually made: in order, up to and including the first one that raises. */
  function Attempted(requests: seq<Request>, service: Request -> Outcome): seq<Request> {
    if requests == [] then []
    else [requests[0]] + (if service(requests[0]).Pass? then Attempted(requests[1..], service) else [])
  }

  /** The requests made are a non-empty prefix of the writes whenever there is a write. */
  lemma {:induction false} AttemptedPrefix(requests: seq<Request>, service: Request -> Outcome)
    ensures Attempted(requests, service) <= requests
    ensures requests != [] ==> Attempted(requests, service) != []
  {
    if requests != [] {
      AttemptedPrefix(requests[1..], service);
      assert requests == [requests[0]] + requests[1..];
    }
  }

  /** Every request before the last one made went through. */
  lemma {:induction false} AttemptedPassed(requests: seq<Request>, service: Request -> Outcome, k: nat)
    requires k + 1 < |Attempted(requests, service)|
    ensures service(Attempted(requests, service)[k]).Pass?
  {
    var rest := Attempted(requests[1..], service);
    assert service(requests[0]).Pass?;
    if k > 0 {
      AttemptedPassed(requests[1..], service, k - 1);
    }
  }

  /** When no write fails, all of them are made. */
  lemma {:induction false} AttemptedAll(requests: seq<Request>, service: Request -> Outcome)
    requires forall k :: 0 <= k < |requests| ==> service(requests[k]).Pass?
    ensures Attempted(requests, service) == requests
  {
    if requests != [] {
      assert service(requests[0]).Pass?;
      assert forall k :: 0 <= k < |requests[1..]| ==> requests[1..][k] == requests[k + 1];
      AttemptedAll(requests[1..], service);
      assert requests == [requests[0]] + requests[1..];
    }
  }

  lemma AttemptedSpec(requests: seq<Request>, service: Request -> Outcome)
    ensures var a := Attempted(requests, service);
      && a <= requests
      && (requests != [] ==> a != [])
      && (forall k :: 0 <= k < |a| - 1 ==> service(a[k]).Pass?)
      && ((forall k :: 0 <= k < |requests| ==> service(requests[k]).Pass?) ==> a == requests)
  {
    AttemptedPrefix(requests, service);
    var a := Attempted(requests, service);
    forall k | 0 <= k < |a| - 1 ensures service(a[k]).Pass? {
      AttemptedPassed(requests, service, k);
    }
    if forall k :: 0 <= k < |requests| ==> service(requests[k]).Pass? {
      AttemptedAll(requests, service);
    }
  }

  /** The board `create_board` inserts: empty or missing name and description become `""`, empty or
      missing permissions become `"user"`. */
  datatype BoardPayload = BoardPayload(name: string, description: string, readPermission: string, writePermission: string)

  function OrDefault(form: map<string, string>, k: string, default: string): string {
    if k in form && form[k] != "" then form[k] else default
  }

  function BoardPayloadOf(form: map<string, string>): BoardPayload {
    BoardPayload(OrDefault(form, "name", ""), OrDefault(form, "description", ""),
                 OrDefault(form, "read_permission", "user"), OrDefault(form, "write_permission", "user"))
  }

  lemma BoardPayloadSpec(form: map<string, string>)
    ensures var p := BoardPayloadOf(form);
      && p.readPermission != "" && p.writePermission != ""
      && (p.readPermission == "user" <==> "read_permission" !in form || form["read_permission"] in {"", "user"})
      && (p.writePermission == "user" <==> "write_permission" !in form || form["write_permission"] in {"", "user"})
      && ("name" in form ==> p.name == form["name"])
      && ("description" in form ==> p.description == form["description"])
      && ("name" !in form ==> p.name == "") && ("description" !in form ==> p.description == "")
  {
  }

  /** `create_board`: a non-admin sends nothing; an admin builds the payload and inserts it through
      the handle, and the boards are reloaded only when the insert went through. Returns the writes
      made and whether the reload was yielded. */
  function CreateBoard(isAdmin: bool, form: map<string, string>, h: AdminHandle): (seq<Request>, bool) {
    if !isAdmin then ([], false)
    else
      var insert := [InsertBoard(BoardPayloadOf(form))];
      (SentThrough(h, insert), AllPass(h, insert))
  }

  lemma CreateBoardSpec(isAdmin: bool, form: map<string, string>, h: AdminHandle)
    ensures CreateBoard(isAdmin, form, h).0 != [] <==> isAdmin && h.Client?
    ensures isAdmin && h.Client? ==> CreateBoard(isAdmin, form, h).0 == [InsertBoard(BoardPayloadOf(form))]
    ensures CreateBoard(isAdmin, form, h).1 <==>
      isAdmin && h.Client? && h.write(InsertBoard(BoardPayloadOf(form))).Pass?
  {
    if isAdmin && h.Client? {
      var insert := [InsertBoard(BoardPayloadOf(form))];
      assert insert[1..] == [];
      assert insert[0] == InsertBoard(BoardPayloadOf(form));
    }
  }

  /** As written, the handlers holding the coroutine never reach the service: `save_user` and
      `create_board` make no write, `create_board` yields no reload, and `open_user_editor` fills
      the profile fields with `""` whatever the stored profile holds. */
  lemma AdminHandlersAsWritten(v: View, form: map<string, string>, userId: string, target: map<string, string>)
    ensures SentThrough(AsWrittenHandle, SaveRequests(v)) == []
    ensures CreateBoard(true, form, AsWrittenHandle) == ([], false)
    ensures var e := EditorFor(v, userId, target, ProfileOf(AsWrittenHandle, userId));
      e.editUsername == "" && e.editFullName == "" && e.editAvatarUrl == ""
      && e.editEmail == Field(target, "email") && e.editorOpen
  {
  }

  /** With an awaited client whose writes all go through, the same handlers make every planned
      write, reload the boards, and show the stored profile. */
  lemma AdminHandlersIntended(v: View, form: map<string, string>, userId: string, target: map<string, string>,
                              write: Request -> Outcome, profile: string -> Option<map<string, string>>)
    requires forall r :: write(r).Pass?
    ensures SentThrough(Client(write, profile), SaveRequests(v)) == SaveRequests(v)
    ensures CreateBoard(true, form, Client(write, profile)) == ([InsertBoard(BoardPayloadOf(form))], true)
    ensures profile(userId).Some? ==>
      var e := EditorFor(v, userId, target, ProfileOf(Client(write, profile), userId));
      e.editUsername == Field(profile(userId).value, "username")
      && e.editFullName == Field(profile(userId).value, "full_name")
      && e.editAvatarUrl == Field(profile(userId).value, "avatar_url")
  {
    AttemptedAll(SaveRequests(v), write);
    CreateBoardSpec(true, form, Client(write, profile));
  }

  /** The events `on_load_admin` yields. */
  datatype Event = Redirect(path: string) | LoadAllBoards | LoadAllUsers

  function OnLoadAdmin(isAdmin: bool): seq<Event> {
    if !isAdmin then [Redirect("/")] else [LoadAllBoards, LoadAllUsers]
  }

  lemma OnLoadAdminSpec(isAdmin: bool)
    ensures Redirect("/") in OnLoadAdmin(isAdmin) <==> !isAdmin
    ensures isAdmin ==> LoadAllBoards in OnLoadAdmin(isAdmin) && LoadAllUsers in OnLoadAdmin(isAdmin)
  {
  }

  /** The editor filled from a user record and that user's profile. */
  function EditorFor(v: View, userId: string, target: map<string, string>, meta: map<string, string>): View {
    v.(editUserId := userId, editEmail := Field(target, "email"), editUsername := Field(meta, "username"),
       editFullName := Field(meta, "full_name"), editAvatarUrl := Field(meta, "avatar_url"), editorOpen := true)
  }

  class AdminState {
    var allUsers: seq<map<string, string>>
    var editorOpen: bool
    var editUserId: string
    var editEmail: string
    var editUsername: string
    var editFullName: string
    var editAvatarUrl: string
    var boards: seq<map<string, string>>
    var isLoadingBoards: bool

    constructor()
      ensures Snapshot() == View([], false, "", "", "", "", "", [], false)
    {
      allUsers, editorOpen, editUserId, editEmail := [], false, "", "";
      editUsername, editFullName, editAvatarUrl, boards, isLoadingBoards := "", "", "", [], false;
    }

    function Snapshot(): View
      reads this
    {
      View(allUsers, editorOpen, editUserId, editEmail, editUsername, editFullName, editAvatarUrl, boards, isLoadingBoards)
    }

    /** `open_user_editor`: for an admin and a listed user, the edit fields are filled (missing
        values as `""`) from the user and the profile read through the handle, and the editor
        opens; a profile that cannot be read counts as empty. Otherwise nothing changes. */
    method OpenUserEditor(isAdmin: bool, userId: string, h: AdminHandle)
      modifies this
      ensures !isAdmin || FindUser(old(allUsers), userId).None? ==> Snapshot() == old(Snapshot())
      ensures isAdmin && FindUser(old(allUsers), userId).Some? ==>
        Snapshot() == EditorFor(old(Snapshot()), userId, FindUser(old(allUsers), userId).value, ProfileOf(h, userId))
    {
      if !isAdmin {
        return;
      }
      var target := FindUser(allUsers, userId);
      if target.None? {
        return;
      }
      var meta := ProfileOf(h, userId);
      editUserId := userId;
      editEmail := Field(target.value, "email");
      editUsername := Field(meta, "username");
      editFullName := Field(meta, "full_name");
      editAvatarUrl := Field(meta, "avatar_url");
      editorOpen := true;
    }

    method CancelUserEditor()
      modifies this
      ensures Snapshot() == old(Snapshot()).(editorOpen := false)
    {
      editorOpen := false;
    }

    method SetEditorOpen(v: bool)
      modifies this
      ensures Snapshot() == old(Snapshot()).(editorOpen := v)
    {
      editorOpen := v;
    }

    /** `set_edit_email`: a null value is stored as `""`. */
    method SetEditEmail(v: Option<string>)
      modifies this
      ensures Snapshot() == old(Snapshot()).(editEmail := v.GetOr(""))
    {
      editEmail := v.GetOr("");
    }

    method SetEditUsername(v: Option<string>)
      modifies this
      ensures Snapshot() == old(Snapshot()).(editUsername := v.GetOr(""))
    {
      editUsername := v.GetOr("");
    }

    method SetEditFullName(v: Option<string>)
      modifies this
      ensures Snapshot() == old(Snapshot()).(editFullName := v.GetOr(""))
    {
      editFullName := v.GetOr("");
    }

    method SetEditAvatarUrl(v: Option<string>)
      modifies this
      ensures Snapshot() == old(Snapshot()).(editAvatarUrl := v.GetOr(""))
    {
      editAvatarUrl := v.GetOr("");
    }

    /** `save_user`: a non-admin or an editor without a user id does nothing. Otherwise the writes
        are sent through the handle until one raises, and then, whatever happened, the editor
        closes and the user list is reloaded. */
    method SaveUser(isAdmin: bool, h: AdminHandle) returns (sent: seq<Request>, reload: bool)
      modifies this
      ensures !isAdmin || old(editUserId) == "" ==> Snapshot() == old(Snapshot()) && sent == [] && !reload
      ensures isAdmin && old(editUserId) != "" ==>
        && Snapshot() == old(Snapshot()).(editorOpen := false)
        && sent == SentThrough(h, SaveRequests(old(Snapshot())))
        && reload
    {
      if !isAdmin || editUserId == "" {
        return [], false;
      }
      sent := SentThrough(h, SaveRequests(Snapshot()));
      editorOpen := false;
      reload := true;
    }
  }
}
