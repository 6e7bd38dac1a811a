/** The shortcuts router: the list visibility rule, creation with its sharing gate, and the
    owner-only update and delete. */
module Shortcuts {
  import opened Wrappers
  import opened Permissions
  import opened Gate
  import opened Store

  const SharedMessage := "Only managers and admins can create shared shortcuts"
  const NotOwnedMessage := "Shortcut not found or not owned by you"

  // ---- list ----

  predicate SharedScope(scope: string) {
    scope == "org" || scope == "branch" || scope == "team"
  }

  /** A shortcut `list` returns to `userId`: active, and either the caller's own or shared. */
  predicate Visible(s: Shortcut, userId: Id) {
    s.isActive && (s.createdById == userId || SharedScope(s.visibilityScope))
  }

  /** The rows the `where` clause of `list` selects. */
  function VisibleIds(rows: map<Id, Shortcut>, userId: Id): (ids: set<Id>)
    ensures forall k :: k in ids <==> k in rows && Visible(rows[k], userId)
  {
    set k | k in rows.Keys && Visible(rows[k], userId)
  }

  /** `orderBy: { name: "asc" }`: names compared character by character by code point, a
      proper prefix first. */
  predicate NameLe(a: string, b: string)
    decreases |a|
  {
    a == [] || (b != [] && (a[0] < b[0] || (a[0] == b[0] && NameLe(a[1..], b[1..]))))
  }

  lemma {:induction false} NameLeTotal(a: string, b: string)
    ensures NameLe(a, b) || NameLe(b, a)
    decreases |a|
  {
    if a != [] && b != [] && a[0] == b[0] {
      NameLeTotal(a[1..], b[1..]);
    }
  }

  lemma {:induction false} NameLeTransitive(a: string, b: string, c: string)
    requires NameLe(a, b) && NameLe(b, c)
    ensures NameLe(a, c)
    decreases |a|
  {
    if a != [] && a[0] == b[0] && b[0] == c[0] {
      NameLeTransitive(a[1..], b[1..], c[1..]);
    }
  }

  /** Every finite set of rows has a row whose name sorts first. */
  lemma {:induction false} FirstByNameExists(rows: map<Id, Shortcut>, ids: set<Id>)
    requires ids != {} && ids <= rows.Keys
    ensures exists k :: k in ids && forall m :: m in ids ==> NameLe(rows[k].name, rows[m].name)
    decreases |ids|
  {
    var x :| x in ids;
    if ids - {x} == {} {
      assert ids == {x};
      NameLeTotal(rows[x].name, rows[x].name);
    } else {
      FirstByNameExists(rows, ids - {x});
      var k :| k in ids - {x} && forall m :: m in ids - {x} ==> NameLe(rows[k].name, rows[m].name);
      NameLeTotal(rows[x].name, rows[k].name);
      if NameLe(rows[x].name, rows[k].name) {
        forall m | m in ids
          ensures NameLe(rows[x].name, rows[m].name)
        {
          if m != x {
            NameLeTransitive(rows[x].name, rows[k].name, rows[m].name);
          } else {
            NameLeTotal(rows[x].name, rows[x].name);
          }
        }
      } else {
        assert forall m :: m in ids ==> NameLe(rows[k].name, rows[m].name);
      }
    }
  }

  /** `ids` lists rows, each once, in ascending name order. */
  predicate SortedByName(rows: map<Id, Shortcut>, ids: seq<Id>) {
    && (forall i :: 0 <= i < |ids| ==> ids[i] in rows)
    && (forall i, j :: 0 <= i < j < |ids| ==> ids[i] != ids[j])
    && (forall i, j :: 0 <= i < j < |ids| ==> NameLe(rows[ids[i]].name, rows[ids[j]].name))
  }

  /** A new row whose name sorts after every listed one may be appended. */
  lemma AppendKeepsSorted(rows: map<Id, Shortcut>, ids: seq<Id>, k: Id)
    requires SortedByName(rows, ids) && k in rows && k !in ids
    requires forall i :: 0 <= i < |ids| ==> NameLe(rows[ids[i]].name, rows[k].name)
    ensures SortedByName(rows, ids + [k])
  {
  }

  /** `shortcut.list`: the visible rows, each once, in ascending name order. The database's
      sort is modelled by taking the remaining row whose name sorts first, one at a time. */
  method ListFor(rows: map<Id, Shortcut>, userId: Id) returns (ids: seq<Id>)
    ensures forall k :: k in ids <==> k in rows && Visible(rows[k], userId)
    ensures SortedByName(rows, ids)
  {
    ids := [];
    var rest := VisibleIds(rows, userId);
    while rest != {}
      invariant rest <= VisibleIds(rows, userId)
      invariant forall k :: k in ids <==> k in VisibleIds(rows, userId) && k !in rest
      invariant SortedByName(rows, ids)
      invariant forall i, m :: 0 <= i < |ids| && m in rest ==> NameLe(rows[ids[i]].name, rows[m].name)
      decreases |rest|
    {
      FirstByNameExists(rows, rest);
      var k :| k in rest && forall m :: m in rest ==> NameLe(rows[k].name, rows[m].name);
      assert k !in ids;
      AppendKeepsSorted(rows, ids, k);
      ids := ids + [k];
      rest := rest - {k};
    }
  }

  /** Nobody sees another user's private shortcut, and nobody sees an inactive one, not even its
      owner. */
  lemma ListHidesPrivateAndInactive(rows: map<Id, Shortcut>, userId: Id, k: Id)
    requires k in rows
    ensures rows[k].visibilityScope == "private" && rows[k].createdById != userId ==> k !in VisibleIds(rows, userId)
    ensures !rows[k].isActive ==> k !in VisibleIds(rows, userId)
    ensures rows[k].isActive && rows[k].createdById == userId ==> k in VisibleIds(rows, userId)
  {
  }

  // ---- create ----

  /** The sharing gate: an org or branch shortcut needs either admin capability; any other scope
      needs nothing. */
  predicate MayCreate(role: Role, scope: string) {
    (scope == "org" || scope == "branch") ==>
      HasPermission(role, AdminManageUsers) || HasPermission(role, AdminManageBranches)
  }

  /** With the permission table, only ADMIN may create org or branch shortcuts, and everyone may
      create private or team ones. */
  lemma OnlyAdminShares(role: Role, scope: string)
    ensures (scope == "org" || scope == "branch") ==> (MayCreate(role, scope) <==> role == Role.Admin)
    ensures (scope == "private" || scope == "team") ==> MayCreate(role, scope)
  {
    OnlyAdminManagesUsers(role);
    OnlyAdminManagesBranches(role);
  }

  /** The fields of `shortcut.create`, defaults already applied (output mode "chat", scope
      "private"). */
  datatype ShortcutInput = ShortcutInput(
    name: string, description: Option<string>, icon: Option<string>, actionType: string,
    promptTemplate: Option<string>, toolName: Option<string>, toolSequence: Option<seq<SequenceStep>>,
    defaultInputs: Option<Snapshot>, outputMode: string, permissionScopeRequired: Option<string>,
    visibilityScope: string)

  function NewShortcut(i: ShortcutInput, owner: Id): (s: Shortcut)
    ensures s.createdById == owner && s.isActive && s.visibilityScope == i.visibilityScope
  {
    Shortcut(i.name, i.description, i.icon, i.actionType, i.promptTemplate, i.toolName, i.toolSequence,
      i.defaultInputs, i.outputMode, i.permissionScopeRequired, i.visibilityScope, owner, true)
  }

  /** `shortcut.create`. The sharing refusal is a plain error, which reaches the client as an
      internal server error. */
  method Create(db: Db, session: Option<SessionUser>, input: ShortcutInput)
    returns (r: Result<Id, TrpcError>)
    requires db.Valid()
    modifies db.shortcuts, db.audit
    ensures db.Valid()
    ensures EnforceAuth(session).Failure? ==> r == Failure(EnforceAuth(session).error)
    ensures (session.Some? && !MayCreate(session.value.role, input.visibilityScope)) ==>
      r == Fail(InternalServerError, SharedMessage)
    ensures r.Success? <==> session.Some? && MayCreate(session.value.role, input.visibilityScope)
    ensures r.Failure? ==> unchanged(db.shortcuts, db.audit)
    ensures r.Success? ==>
      && r.value !in old(db.shortcuts.rows)
      && db.shortcuts.rows == old(db.shortcuts.rows)[r.value := NewShortcut(input, session.value.id)]
      && db.audit.entries == old(db.audit.entries) + [AuditEntry(session.value.id, "shortcut.create", "Shortcut",
           RowRef(r.value), None,
           Some(map["name" := Text(input.name), "actionType" := Text(input.actionType),
                    "visibility" := Text(input.visibilityScope)]), None, None)]
  {
    var gate := EnforceAuth(session);
    if gate.Failure? {
      return Failure(gate.error);
    }
    var user := gate.value.user;
    if input.visibilityScope == "org" || input.visibilityScope == "branch" {
      if !HasPermission(user.role, AdminManageUsers) {
        var canManage := HasPermission(user.role, AdminManageBranches);
        if !canManage {
          return Fail(InternalServerError, SharedMessage);
        }
      }
    }
    var id := db.InsertShortcut(NewShortcut(input, user.id));
    db.audit.Append(AuditEntry(user.id, "shortcut.create", "Shortcut", RowRef(id), None,
      Some(map["name" := Text(input.name), "actionType" := Text(input.actionType),
               "visibility" := Text(input.visibilityScope)]), None, None));
    return Success(id);
  }

  // ---- update and delete ----

  predicate Owns(rows: map<Id, Shortcut>, id: Id, userId: Id) {
    id in rows && rows[id].createdById == userId
  }

  /** The optional fields of `shortcut.update`; an absent field is left as it was. */
  datatype ShortcutPatch = ShortcutPatch(
    name: Option<string>, description: Option<string>, icon: Option<string>, promptTemplate: Option<string>,
    toolName: Option<string>, defaultInputs: Option<Snapshot>, outputMode: Option<string>, isActive: Option<bool>)

  function Patched(s: Shortcut, p: ShortcutPatch): (r: Shortcut)
    ensures r.name == p.name.GetOr(s.name) && r.outputMode == p.outputMode.GetOr(s.outputMode)
    ensures r.isActive == p.isActive.GetOr(s.isActive)
    ensures r.description == (if p.description.Some? then p.description else s.description)
    ensures r.icon == (if p.icon.Some? then p.icon else s.icon)
    ensures r.promptTemplate == (if p.promptTemplate.Some? then p.promptTemplate else s.promptTemplate)
    ensures r.toolName == (if p.toolName.Some? then p.toolName else s.toolName)
    ensures r.defaultInputs == (if p.defaultInputs.Some? then p.defaultInputs else s.defaultInputs)
    ensures r.createdById == s.createdById && r.visibilityScope == s.visibilityScope
    ensures r.actionType == s.actionType && r.toolSequence == s.toolSequence
    ensures r.permissionScopeRequired == s.permissionScopeRequired
  {
    s.(name := p.name.GetOr(s.name),
       description := if p.description.Some? then p.description else s.description,
       icon := if p.icon.Some? then p.icon else s.icon,
       promptTemplate := if p.promptTemplate.Some? then p.promptTemplate else s.promptTemplate,
       toolName := if p.toolName.Some? then p.toolName else s.toolName,
       defaultInputs := if p.defaultInputs.Some? then p.defaultInputs else s.defaultInputs,
       outputMode := p.outputMode.GetOr(s.outputMode),
       isActive := p.isActive.GetOr(s.isActive))
  }

  /** An empty patch changes nothing. */
  lemma EmptyPatchIsIdentity(s: Shortcut)
    ensures Patched(s, ShortcutPatch(None, None, None, None, None, None, None, None)) == s
  {
  }

  /** `shortcut.update`: only the owner; no audit entry. Ownership and sharing scope cannot be
      changed this way. */
  method Update(db: Db, session: Option<SessionUser>, id: Id, patch: ShortcutPatch)
    returns (r: Result<Shortcut, TrpcError>)
    requires db.Valid()
    modifies db.shortcuts
    ensures db.Valid()
    ensures EnforceAuth(session).Failure? ==> r == Failure(EnforceAuth(session).error)
    ensures (session.Some? && !Owns(old(db.shortcuts.rows), id, session.value.id)) ==>
      r == Fail(InternalServerError, NotOwnedMessage)
    ensures r.Success? <==> session.Some? && Owns(old(db.shortcuts.rows), id, session.value.id)
    ensures r.Failure? ==> unchanged(db.shortcuts)
    ensures r.Success? ==>
      r.value == Patched(old(db.shortcuts.rows[id]), patch) && db.shortcuts.rows == old(db.shortcuts.rows)[id := r.value]
  {
    var gate := EnforceAuth(session);
    if gate.Failure? {
      return Failure(gate.error);
    }
    var user := gate.value.user;
    if !Owns(db.shortcuts.rows, id, user.id) {
      return Fail(InternalServerError, NotOwnedMessage);
    }
    var updated := Patched(db.shortcuts.rows[id], patch);
    db.UpdateShortcut(id, updated);
    return Success(updated);
  }

  /** `shortcut.delete`: only the owner; the row is removed and one "shortcut.delete" entry keeps
      its name. */
  method Delete(db: Db, session: Option<SessionUser>, id: Id)
    returns (r: Result<bool, TrpcError>)
    requires db.Valid()
    modifies db.shortcuts, db.audit
    ensures db.Valid()
    ensures EnforceAuth(session).Failure? ==> r == Failure(EnforceAuth(session).error)
    ensures (session.Some? && !Owns(old(db.shortcuts.rows), id, session.value.id)) ==>
      r == Fail(InternalServerError, NotOwnedMessage)
    ensures r.Success? <==> session.Some? && Owns(old(db.shortcuts.rows), id, session.value.id)
    ensures r.Failure? ==> unchanged(db.shortcuts, db.audit)
    ensures r.Success? ==>
      && r.value
      && id !in db.shortcuts.rows && db.shortcuts.rows == old(db.shortcuts.rows) - {id}
      && db.audit.entries == old(db.audit.entries) + [AuditEntry(session.value.id, "shortcut.delete", "Shortcut",
           RowRef(id), Some(map["name" := Text(old(db.shortcuts.rows[id]).name)]), None, None, None)]
  {
    var gate := EnforceAuth(session);
    if gate.Failure? {
      return Failure(gate.error);
    }
    var user := gate.value.user;
    if !Owns(db.shortcuts.rows, id, user.id) {
      return Fail(InternalServerError, NotOwnedMessage);
    }
    var existing := db.shortcuts.rows[id];
    db.DeleteShortcut(id);
    db.audit.Append(AuditEntry(user.id, "shortcut.delete", "Shortcut", RowRef(id),
      Some(map["name" := Text(existing.name)]), None, None, None));
    return Success(true);
  }
}
