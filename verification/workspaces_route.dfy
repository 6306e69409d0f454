/** The workspaces API: the caller's workspaces with their role, newest first, and the
    name rule for a new workspace. */
module WorkspacesRoute {
  import opened Common
  import opened Seqs
  import opened Text
  import opened Http
  import opened Ledger

  /** The joined `workspaces` row of a membership; `created_at` read back as a number. */
  datatype WorkspaceRef = WorkspaceRef(id: string, name: string, created_at: int)

  /** One of the caller's `workspace_members` rows with its joined workspace. */
  datatype Membership = Membership(role: Role, created_at: int, workspace: Option<WorkspaceRef>)

  /** A workspace as returned: its own fields and the caller's role in it. */
  datatype ListedWorkspace = ListedWorkspace(id: string, name: string, created_at: int, role: Role)

  predicate HasWorkspace(m: Membership)
  {
    m.workspace.Some?
  }

  /** The flattening of a membership whose workspace is present. */
  function Flattened(m: Membership): (w: ListedWorkspace)
    requires HasWorkspace(m)
    ensures w.id == m.workspace.value.id && w.name == m.workspace.value.name
    ensures w.created_at == m.workspace.value.created_at && w.role == m.role
  {
    ListedWorkspace(m.workspace.value.id, m.workspace.value.name, m.workspace.value.created_at, m.role)
  }

  function FlattenAll(ms: seq<Membership>): (r: seq<ListedWorkspace>)
    requires forall k :: 0 <= k < |ms| ==> HasWorkspace(ms[k])
    ensures |r| == |ms|
    ensures forall k :: 0 <= k < |ms| ==> r[k] == Flattened(ms[k])
  {
    seq(|ms|, k requires 0 <= k < |ms| => Flattened(ms[k]))
  }

  function CreatedAt(w: ListedWorkspace): int
  {
    w.created_at
  }

  /** `.filter(m => m.workspaces).map(...)`: the memberships that have a workspace,
      flattened, in their original order. */
  function PresentFlattened(memberships: seq<Membership>): (flat: seq<ListedWorkspace>)
    ensures |flat| <= |memberships|
    ensures forall w :: w in flat ==>
      exists m :: m in memberships && HasWorkspace(m) && w == Flattened(m)
    ensures forall m :: m in memberships && HasWorkspace(m) ==> Flattened(m) in flat
  {
    var present := Filter(memberships, HasWorkspace);
    var flat := FlattenAll(present);
    assert forall w :: w in flat ==> exists m :: m in memberships && HasWorkspace(m) && w == Flattened(m) by {
      forall w | w in flat ensures exists m :: m in memberships && HasWorkspace(m) && w == Flattened(m) {
        var k :| 0 <= k < |flat| && flat[k] == w;
        assert present[k] in present;
      }
    }
    assert forall m :: m in memberships && HasWorkspace(m) ==> Flattened(m) in flat by {
      forall m | m in memberships && HasWorkspace(m) ensures Flattened(m) in flat {
        var k :| 0 <= k < |present| && present[k] == m;
        assert flat[k] == Flattened(m);
      }
    }
    flat
  }

  /** The list `GET /api/workspaces` returns for the caller's memberships: memberships
      without a workspace dropped, each flattened with its role, newest first. */
  function ListWorkspaces(memberships: seq<Membership>): (r: seq<ListedWorkspace>)
    ensures |memberships| == 0 ==> r == []
    ensures |r| <= |memberships|
    ensures forall w :: w in r ==>
      exists m :: m in memberships && HasWorkspace(m) && w == Flattened(m)
    ensures forall m :: m in memberships && HasWorkspace(m) ==> Flattened(m) in r
    ensures multiset(r) == multiset(PresentFlattened(memberships))
    ensures SortedDesc(r, CreatedAt)
  {
    if |memberships| == 0 then []
    else
      var flat := PresentFlattened(memberships);
      var r := SortDesc(flat, CreatedAt);
      assert forall w :: w in r <==> w in multiset(r);
      assert forall w :: w in flat <==> w in multiset(flat);
      r
  }

  /** The caller sees each workspace with the role of the membership that brought it. */
  lemma ListedRoleIsMembershipRole(memberships: seq<Membership>, w: ListedWorkspace)
    requires w in ListWorkspaces(memberships)
    ensures exists m ::
      m in memberships && m.workspace == Some(WorkspaceRef(w.id, w.name, w.created_at)) && m.role == w.role
  {
    var m :| m in memberships && HasWorkspace(m) && w == Flattened(m);
    assert m.workspace == Some(WorkspaceRef(w.id, w.name, w.created_at));
  }

  const WORKSPACES_FETCH_FAILED: string := "Failed to fetch workspaces"

  /** `GET /api/workspaces`. */
  function GetWorkspaces(hasUser: bool, dbError: Option<string>, memberships: seq<Membership>)
    : (resp: Response<seq<ListedWorkspace>>)
    ensures !hasUser ==> resp == Fail(401, UNAUTHORIZED)
    ensures hasUser && dbError.Some? ==> resp == Failure(Error(dbError.value), WORKSPACES_FETCH_FAILED)
    ensures hasUser && dbError.Some? ==>
      resp.status == (if dbError.value == UNAUTHORIZED then 401 else 500)
    ensures hasUser && dbError.None? ==> resp == Ok(ListWorkspaces(memberships))
    ensures resp.Ok? <==> hasUser && dbError.None?
  {
    Listing(hasUser, dbError, ListWorkspaces(memberships), WORKSPACES_FETCH_FAILED)
  }

  // ---------------------------------------------------------------- creation

  /** `createWorkspaceSchema.parse`: the name is 1 to 100 UTF-16 code units long. */
  predicate ValidWorkspaceName(name: string)
  {
    1 <= Utf16Length(name) <= 100
  }

  /** Any non-empty name of at most 50 characters passes, and a name of more than 100
      characters never does. */
  lemma WorkspaceNameBounds(name: string)
    ensures 1 <= |name| <= 50 ==> ValidWorkspaceName(name)
    ensures |name| > 100 ==> !ValidWorkspaceName(name)
    ensures |name| == 0 ==> !ValidWorkspaceName(name)
  {
  }

  /** The workspace record the creating database function returns. */
  datatype CreatedWorkspace = CreatedWorkspace(id: string, name: string, created_at: int)

  const CREATE_FALLBACK: string := "Failed to create workspace"

  /** `POST /api/workspaces`: `created` is what the creating database function returns,
      `dbError` its error, if any. */
  function CreateWorkspace(hasUser: bool, name: string, dbError: Option<string>,
                           created: CreatedWorkspace): (resp: Response<CreatedWorkspace>)
    ensures !hasUser ==> resp == Fail(401, UNAUTHORIZED)
    ensures hasUser && !ValidWorkspaceName(name) ==> resp == Fail(400, "Invalid input")
    ensures hasUser && ValidWorkspaceName(name) && dbError.Some? ==>
      resp == Failure(Error(dbError.value), CREATE_FALLBACK)
    ensures resp.Ok? <==> hasUser && ValidWorkspaceName(name) && dbError.None?
    ensures resp.Ok? ==> resp.data == created
  {
    if !hasUser then Failure(Error(UNAUTHORIZED), CREATE_FALLBACK)
    else if !ValidWorkspaceName(name) then Failure(ZodError, CREATE_FALLBACK)
    else if dbError.Some? then Failure(Error(dbError.value), CREATE_FALLBACK)
    else Ok(created)
  }
}
