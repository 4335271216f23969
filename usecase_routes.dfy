/** The use-case handlers of backend/routes/useCaseRoutes.js over an in-memory picture of the
    `use_case` and `use_case_history` tables. Each handler runs after the gates of its route
    (`Pipeline.Admit` with the role set below) and receives the caller's claims. */
module UseCaseRoutes {
  import opened Base
  import opened CheckRoleMiddleware
  import opened Ordering
  import opened Tables
  import opened UserModel
  import opened UseCaseModel
  import opened UseCaseHistoryModel

  const CreateRoles: seq<string> := [Admin, Editor]
  const ListRoles: seq<string> := [Admin, Editor, Visualizador]
  const UpdateRoles: seq<string> := [Admin, Editor]
  const DeleteRoles: seq<string> := [Admin]
  const HistoryRoles: seq<string> := [Admin]
  const GetRoles: seq<string> := [Admin, Editor, Visualizador]

  const TitleRequired: string := "Título e descrição são obrigatórios."
  const UseCaseNotFound: string := "Caso de uso não encontrado."
  const NotAuthorized: string := "Acesso não autorizado."
  const CreateFailed: string := "Erro inesperado ao criar o caso de uso."
  const UpdateFailed: string := "Erro ao atualizar caso de uso."
  const Deleted: string := "Caso de uso excluído com sucesso!"

  /** The role gates of the six use-case routes: every role reads, admins and editors write,
      only admins delete and see the history. */
  lemma UseCaseRouteRoles(user: Claims)
    ensures CheckRole(ListRoles, Some(user)) == Proceed <==> IsRole(user.role)
    ensures CheckRole(GetRoles, Some(user)) == Proceed <==> IsRole(user.role)
    ensures CheckRole(CreateRoles, Some(user)) == Proceed <==> user.role == Admin || user.role == Editor
    ensures CheckRole(UpdateRoles, Some(user)) == Proceed <==> user.role == Admin || user.role == Editor
    ensures CheckRole(DeleteRoles, Some(user)) == Proceed <==> user.role == Admin
    ensures CheckRole(HistoryRoles, Some(user)) == Proceed <==> user.role == Admin
  {
  }

  /** The first check of create and update: `!title || !description` rejects. */
  predicate HasTitleAndDescription(body: Fields)
  {
    Truthy(body.title) && Truthy(body.description)
  }

  /** The ownership rule of update: the creator or an admin. */
  predicate MayEdit(caller: Claims, u: UseCase)
  {
    u.createdBy == Some(caller.id) || caller.role == Admin
  }

  class UseCaseStore {
    var useCases: map<int, UseCase>
    var history: seq<HistoryEntry>
    var nextId: int          // the auto-increment counter of use_case.id
    var nextHistoryId: int   // the auto-increment counter of use_case_history.id

    /** Rows are keyed by their id, ids come from the counters, every row meets the schema,
        and history rows are in insertion order. */
    ghost predicate Valid()
      reads this
    {
      && 1 <= nextId && 1 <= nextHistoryId
      && (forall id :: id in useCases ==> useCases[id].id == id && 1 <= id < nextId)
      && (forall id :: id in useCases ==> UseCaseModel.Conforms(useCases[id]))
      && (forall i :: 0 <= i < |history| ==> 1 <= history[i].id < nextHistoryId)
      && (forall i, j :: 0 <= i < j < |history| ==> history[i].id < history[j].id)
    }

    constructor ()
      ensures Valid()
      ensures useCases == map[] && history == [] && nextId == 1 && nextHistoryId == 1
    {
      useCases := map[];
      history := [];
      nextId := 1;
      nextHistoryId := 1;
    }

    /** POST /use-cases. */
    method Create(caller: Claims, body: Fields, now: nat) returns (r: Reply<UseCase>)
      requires Valid()
      modifies this
      ensures Valid()
      ensures history == old(history) && nextHistoryId == old(nextHistoryId)
      ensures !HasTitleAndDescription(body) ==> r == Fail(400, [TitleRequired]) && unchanged(this)
      // the handler checks two columns, the schema five more: the insert itself fails
      ensures HasTitleAndDescription(body) && !Complete(body)
          ==> r == Fail(500, [CreateFailed]) && unchanged(this)
      ensures HasTitleAndDescription(body) && Complete(body) ==>
          && old(nextId) !in old(useCases)
          && r == Ok(201, UseCase(old(nextId), body, Some(caller.id), now, now))
          && useCases == old(useCases)[old(nextId) := r.value]
          && nextId == old(nextId) + 1
    {
      if !HasTitleAndDescription(body) {
        return Fail(400, [TitleRequired]);
      }
      if !Complete(body) {
        return Fail(500, [CreateFailed]);
      }
      var u := UseCase(nextId, body, Some(caller.id), now, now);
      useCases := useCases[nextId := u];
      nextId := nextId + 1;
      r := Ok(201, u);
    }

    /** GET /use-cases/:id. */
    function Get(id: int): (r: Reply<UseCase>)
      reads this
      ensures r.Ok? <==> id in useCases
      ensures r.Ok? ==> r == Ok(200, useCases[id])
      ensures r.Fail? ==> r == Fail(404, [UseCaseNotFound])
    {
      if id in useCases then Ok(200, useCases[id]) else Fail(404, [UseCaseNotFound])
    }

    /** GET /usecases: every stored use case, once each, newest first. */
    function List(): (r: seq<UseCase>)
      reads this
      requires Valid()
      ensures forall u :: u in r <==> u in useCases.Values
      ensures NewestFirst(r, CreatedAt)
      ensures |r| == |useCases|
    {
      var rows := Rows(useCases, 1, nextId);
      assert (set k | 1 <= k < nextId && k in useCases) == useCases.Keys;
      var r := SortDesc(rows, CreatedAt);
      assert |multiset(r)| == |multiset(rows)|;
      r
    }

    /** PUT /use-cases/:id. The checks run in the order validation, existence, ownership. On
        success the pre-update content is appended to the history, then the row is overwritten.
        The two writes are not one transaction: when the body lacks a non-null column the save
        fails with 500 after the history entry has been written. */
    method Update(caller: Claims, id: int, body: Fields, now: nat) returns (r: Reply<UseCase>)
      requires Valid()
      modifies this
      ensures Valid()
      ensures nextId == old(nextId)
      ensures !HasTitleAndDescription(body) ==> r == Fail(400, [TitleRequired]) && unchanged(this)
      ensures HasTitleAndDescription(body) && id !in old(useCases)
          ==> r == Fail(404, [UseCaseNotFound]) && unchanged(this)
      ensures HasTitleAndDescription(body) && id in old(useCases) && !MayEdit(caller, old(useCases)[id])
          ==> r == Fail(403, [NotAuthorized]) && unchanged(this)
      ensures HasTitleAndDescription(body) && id in old(useCases) && MayEdit(caller, old(useCases)[id]) ==>
          && history == old(history) + [HistoryEntry(old(nextHistoryId), id, old(useCases)[id].fields, caller.id, now)]
          && nextHistoryId == old(nextHistoryId) + 1
          && (Complete(body) ==>
                && r == Ok(200, old(useCases)[id].(fields := body))
                && useCases == old(useCases)[id := r.value])
          && (!Complete(body) ==> r == Fail(500, [UpdateFailed]) && useCases == old(useCases))
    {
      if !HasTitleAndDescription(body) {
        return Fail(400, [TitleRequired]);
      }
      if id !in useCases {
        return Fail(404, [UseCaseNotFound]);
      }
      var u := useCases[id];
      if u.createdBy != Some(caller.id) && caller.role != Admin {
        return Fail(403, [NotAuthorized]);
      }
      history := history + [HistoryEntry(nextHistoryId, u.id, u.fields, caller.id, now)];
      nextHistoryId := nextHistoryId + 1;
      if !Complete(body) {
        return Fail(500, [UpdateFailed]);
      }
      var updated := u.(fields := body);
      useCases := useCases[id := updated];
      r := Ok(200, updated);
    }

    /** DELETE /use-cases/:id: removes the row and leaves its history entries in place. */
    method Delete(id: int) returns (r: Reply<string>)
      requires Valid()
      modifies this
      ensures Valid()
      ensures history == old(history) && nextId == old(nextId) && nextHistoryId == old(nextHistoryId)
      ensures id !in old(useCases) ==> r == Fail(404, [UseCaseNotFound]) && useCases == old(useCases)
      ensures id in old(useCases) ==> r == Ok(200, Deleted) && useCases == old(useCases) - {id}
    {
      if id !in useCases {
        return Fail(404, [UseCaseNotFound]);
      }
      useCases := useCases - {id};
      r := Ok(200, Deleted);
    }

    /** GET /use-cases/:id/history: exactly the entries of that use case, each as often as it is
        stored, newest edit first. */
    function ListHistory(useCaseId: int): (r: seq<HistoryEntry>)
      reads this
      ensures forall e :: e in r ==> e.useCaseId == useCaseId
      ensures forall e: HistoryEntry :: e.useCaseId == useCaseId ==> multiset(r)[e] == multiset(history)[e]
      ensures NewestFirst(r, EditedAt)
    {
      SortDesc(EntriesFor(history, useCaseId), EditedAt)
    }
  }
}
