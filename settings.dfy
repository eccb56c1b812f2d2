/** The settings page (pages/Settings.tsx): the interface preferences form with its
    unsaved-changes flag, and the local team list with its user form. Every update
    builds a new value; persisting the team list to the browser is not modelled. */
module SettingsPage {
  import opened Wrappers
  import opened Types
  import Seqs

  /** The application settings. Only theme, language and the compact sidebar are edited
      here; `rest` stands for every other setting the object carries. */
  datatype AppSettings = AppSettings(theme: string, language: string, sidebarCompact: bool,
                                     rest: map<string, string>)

  /** The interface form: the saved settings, the edited copy and the confirmation toast. */
  datatype InterfaceForm = InterfaceForm(saved: AppSettings, local: AppSettings, showToast: bool)

  /** The unsaved-changes flag, as the effect recomputes it: set exactly when saving
      would change one of the three watched fields; other settings never set it. */
  predicate IsDirty(local: AppSettings, saved: AppSettings): (b: bool)
    ensures !b <==> local.(rest := saved.rest) == saved
  {
    local.theme != saved.theme || local.language != saved.language || local.sidebarCompact != saved.sidebarCompact
  }

  /** A form opened on the saved settings. */
  function OpenForm(saved: AppSettings): (f: InterfaceForm)
    ensures !IsDirty(f.local, f.saved) && !f.showToast
  {
    InterfaceForm(saved, saved, false)
  }

  /** Editing the local copy. */
  function Edit(f: InterfaceForm, local: AppSettings): (g: InterfaceForm)
    ensures g.saved == f.saved && g.local == local && g.showToast == f.showToast
    ensures local == f.saved ==> !IsDirty(g.local, g.saved)
  {
    f.(local := local)
  }

  /** `handleSave`: the local copy becomes the saved settings (the form then resyncs
      from them), the flag clears and the toast shows. */
  function Save(f: InterfaceForm): (g: InterfaceForm)
    ensures g.saved == f.local && g.local == f.local && g.showToast
    ensures !IsDirty(g.local, g.saved)
  {
    InterfaceForm(f.local, f.local, true)
  }

  /** The toast's timer firing. */
  function ToastExpires(f: InterfaceForm): (g: InterfaceForm)
    ensures g.saved == f.saved && g.local == f.local && !g.showToast
  {
    f.(showToast := false)
  }

  const MainAdminId: string := "1"
  const CannotRemoveAdmin: string := "O administrador principal não pode ser removido."

  /** The team list on first use: the stored list when there is one, otherwise the main
      administrator alone. */
  function InitialUsers(stored: Option<seq<User>>): (r: seq<User>)
    ensures stored.Some? ==> r == stored.value
    ensures stored.None? ==> |r| == 1 && r[0].id == MainAdminId && r[0].role == ADMIN && r[0].active
    ensures stored.None? ==> r[0].permissions == [FINANCE, INVENTORY, PRODUCTS, ORDERS, POS, SETTINGS, REPORTS]
  {
    match stored
    case Some(users) => users
    case None =>
      [User(MainAdminId, "Administrador Nexero", "admin@nexero.app", ADMIN, true,
            [FINANCE, INVENTORY, PRODUCTS, ORDERS, POS, SETTINGS, REPORTS])]
  }

  /** What a delete request leaves: the list and the alert shown, if any. */
  datatype Deletion = Deletion(users: seq<User>, alert: Option<string>)

  /** `handleDelete`: the main administrator is refused with an alert; any other user is
      removed when the confirmation is accepted, and nothing changes otherwise. */
  function DeleteUser(users: seq<User>, id: string, confirmed: bool): (d: Deletion)
    ensures id == MainAdminId ==> d == Deletion(users, Some(CannotRemoveAdmin))
    ensures id != MainAdminId && !confirmed ==> d == Deletion(users, None)
    ensures id != MainAdminId && confirmed ==> d.alert.None? && |d.users| <= |users|
    ensures id != MainAdminId && confirmed ==>
      forall u :: u in d.users <==> u in users && u.id != id
    ensures forall u :: u in users && u.id == MainAdminId ==> u in d.users
  {
    if id == MainAdminId then Deletion(users, Some(CannotRemoveAdmin))
    else if !confirmed then Deletion(users, None)
    else
      var r := Seqs.Filter(users, (u: User) => u.id != id);
      forall u | u in users && u.id != id ensures u in r {
        Seqs.FilterKeepsAccepted(users, (u: User) => u.id != id, u);
      }
      Deletion(r, None)
  }

  /** Removing a user keeps the others in their order: deleting from two halves of the
      list is deleting from each. */
  lemma DeleteKeepsOrder(a: seq<User>, b: seq<User>, id: string)
    requires id != MainAdminId
    ensures DeleteUser(a + b, id, true).users == DeleteUser(a, id, true).users + DeleteUser(b, id, true).users
  {
    Seqs.FilterAppend(a, b, (u: User) => u.id != id);
  }

  /** The team section: the list, the user form's visibility and the user it edits. */
  datatype TeamForm = TeamForm(users: seq<User>, isModalOpen: bool, editing: Option<User>)

  /** `handleSaveUser`: an edited user replaces the one with its id, in place; a new user
      is appended under a fresh id. The form closes either way. */
  function SaveUser(f: TeamForm, user: User, freshId: string): (g: TeamForm)
    ensures !g.isModalOpen && g.editing.None?
    ensures f.editing.Some? ==> |g.users| == |f.users| && forall i :: 0 <= i < |f.users| ==>
      g.users[i] == (if f.users[i].id == user.id then user else f.users[i])
    ensures f.editing.None? ==> g.users == f.users + [user.(id := freshId)]
  {
    var users :=
      if f.editing.Some? then
        seq(|f.users|, i requires 0 <= i < |f.users| => if f.users[i].id == user.id then user else f.users[i])
      else f.users + [user.(id := freshId)];
    TeamForm(users, false, None)
  }

  predicate UniqueIds(users: seq<User>)
  {
    forall i, j :: 0 <= i < j < |users| ==> users[i].id != users[j].id
  }

  /** Saving keeps user ids unique, provided a new user's generated id is not taken. */
  lemma SaveUserKeepsIdsUnique(f: TeamForm, user: User, freshId: string)
    requires UniqueIds(f.users)
    requires f.editing.None? ==> forall u :: u in f.users ==> u.id != freshId
    ensures UniqueIds(SaveUser(f, user, freshId).users)
  {
    var g := SaveUser(f, user, freshId);
    if f.editing.None? {
      forall i, j | 0 <= i < j < |g.users| ensures g.users[i].id != g.users[j].id {
        if j == |f.users| {
          assert g.users[i] == f.users[i] && f.users[i] in f.users;
        } else {
          assert g.users[i] == f.users[i] && g.users[j] == f.users[j];
        }
      }
    }
  }

  /** The user form's starting values: the edited user, or an active seller allowed to
      take orders and use the till. */
  function UserFormFor(user: Option<User>): (u: User)
    ensures user.Some? ==> u == user.value
    ensures user.None? ==> u.id == "" && u.name == "" && u.email == "" && u.role == SELLER && u.active
    ensures user.None? ==> u.permissions == [ORDERS, POS]
  {
    match user
    case Some(existing) => existing
    case None => User("", "", "", SELLER, true, [ORDERS, POS])
  }

  /** The test of `perms.filter(q => q !== p)`. */
  function Other(p: Permission): Permission -> bool
  {
    q => q != p
  }

  /** `togglePermission`: a held permission is taken away (every occurrence of it), a
      missing one is appended. Other permissions are untouched and keep their order. */
  function TogglePermission(perms: seq<Permission>, p: Permission): (r: seq<Permission>)
    ensures p in r <==> p !in perms
    ensures p !in perms ==> r == perms + [p]
    ensures forall q :: q != p ==> (q in r <==> q in perms)
  {
    if p in perms then
      var r := Seqs.Filter(perms, Other(p));
      forall q | q != p && q in perms ensures q in r {
        Seqs.FilterKeepsAccepted(perms, Other(p), q);
      }
      r
    else perms + [p]
  }

  /** Taking back a permission just appended restores the list. */
  lemma UntoggleAppended(perms: seq<Permission>, p: Permission)
    requires p !in perms
    ensures TogglePermission(perms + [p], p) == perms
  {
    Seqs.FilterAppend(perms, [p], Other(p));
    Seqs.FilterAllPass(perms, Other(p));
    assert Seqs.Filter([p], Other(p)) == [];
  }

  /** Toggling twice gives back the same set of permissions, and the very same list when
      the permission was not held. */
  lemma ToggleTwice(perms: seq<Permission>, p: Permission)
    ensures (set q | q in TogglePermission(TogglePermission(perms, p), p)) == (set q | q in perms)
    ensures p !in perms ==> TogglePermission(TogglePermission(perms, p), p) == perms
  {
    var once := TogglePermission(perms, p);
    var twice := TogglePermission(once, p);
    forall q ensures q in twice <==> q in perms {
      if q == p {
        assert p in once <==> p !in perms;
      }
    }
    if p !in perms {
      UntoggleAppended(perms, p);
    }
  }
}
