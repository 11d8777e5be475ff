/**
 * AbstractJsfCrudMb: the CRUD managed bean of the AbstractDao generation,
 * gated by canViewAll, canCreate, canView, canEdit and canRemove.
 */
module CrudMb {
  import opened Wrappers
  import opened Entity
  import opened DaoCommon
  import opened UrlParams
  import opened CrudFlow
  import Converter
  import Dao

  /**
   * The bean's state is `selected`, the cached `all` and the message log;
   * the abstract permission hooks of a concrete bean are given as constants,
   * and `blank` is the fresh entity getNewEntityInstance makes.
   */
  class JsfCrudMb {
    var selected: Option<Entity>
    var all: Option<seq<Entity>>
    var messages: seq<Message>
    const dao: Dao.EntityDao
    const entityName: ClassName
    const kind: IdKind
    const blank: Entity
    const canViewAll: bool
    const canCreate: bool
    const canView: Option<Entity> -> bool
    const canEdit: Option<Entity> -> bool
    const canRemove: Option<Entity> -> bool

    constructor (
      dao: Dao.EntityDao, entityName: ClassName, kind: IdKind, blank: Entity,
      canViewAll: bool, canCreate: bool,
      canView: Option<Entity> -> bool, canEdit: Option<Entity> -> bool, canRemove: Option<Entity> -> bool)
      ensures selected == None && all == None && messages == []
      ensures this.dao == dao && this.entityName == entityName && this.kind == kind && this.blank == blank
      ensures this.canViewAll == canViewAll && this.canCreate == canCreate
      ensures this.canView == canView && this.canEdit == canEdit && this.canRemove == canRemove
    {
      selected := None;
      all := None;
      messages := [];
      this.dao := dao;
      this.entityName := entityName;
      this.kind := kind;
      this.blank := blank;
      this.canViewAll := canViewAll;
      this.canCreate := canCreate;
      this.canView := canView;
      this.canEdit := canEdit;
      this.canRemove := canRemove;
    }

    /** What the flows are built over: E's simple name, E's id class, the DAO's getUniqueParams. */
    function Config(): Setup {
      Setup(entityName, kind, dao.uniqueParams)
    }

    /** The part of the bean and its DAO the actions read and change. */
    function Snapshot(): State
      reads this, dao
    {
      State(selected, messages, dao.rows, dao.writes)
    }

    /** getSelected, on the request's parameters. */
    method GetSelected(request: RequestParams) returns (r: Result<Option<Entity>>)
      modifies this`selected
      ensures var l := LoadSelected(old(Snapshot()), Config(), request);
        && (l.Ok? ==> Snapshot() == l.value && r == Ok(selected))
        && (l.Err? ==> Snapshot() == old(Snapshot()) && r == Err(l.fault))
    {
      if selected.None? {
        var idString := GetUrlStringParam(request, "id");
        if idString.Some? && idString.value != "" {
          var id := Converter.GetIdFromString(kind, idString.value);
          if id.None? {
            return Err(NumberFormat);
          }
          selected := dao.SelectOne(id.value);
        }
      }
      r := Ok(selected);
    }

    /** getNewSelected: keeps a selected entity, or selects a fresh one. */
    method GetNewSelected() returns (r: Entity)
      modifies this`selected
      ensures old(selected).Some? ==> selected == old(selected)
      ensures old(selected).None? ==> selected == Some(blank)
      ensures selected == Some(r)
    {
      if selected.None? {
        selected := Some(blank);
      }
      r := selected.value;
    }

    /**
     * getAll(refresh): None (null) without touching the cache when
     * canViewAll() refuses; otherwise the cache, read again from selectAll
     * only when it is empty or refresh is asked for.
     */
    method GetAll(refresh: bool) returns (r: Option<seq<Entity>>)
      modifies this`all
      ensures !canViewAll ==> r.None? && all == old(all)
      ensures canViewAll && (old(all).None? || refresh) ==> all == Some(dao.SelectAll())
      ensures canViewAll && old(all).Some? && !refresh ==> all == old(all)
      ensures canViewAll ==> r == all
    {
      if !canViewAll {
        return None;
      }
      if all.None? || refresh {
        all := Some(dao.SelectAll());
      }
      r := all;
    }

    /** getAll(): getAll(false). */
    method GetAllCached() returns (r: Option<seq<Entity>>)
      modifies this`all
      ensures !canViewAll ==> r.None? && all == old(all)
      ensures canViewAll && old(all).None? ==> all == Some(dao.SelectAll())
      ensures canViewAll && old(all).Some? ==> all == old(all)
      ensures canViewAll ==> r == all
    {
      r := GetAll(false);
    }

    /** isAnUniqueEntity(selected, isInsert) on the DAO, with a null selected taken as unique. */
    method SelectedIsUnique(isInsert: bool) returns (unique: bool)
      ensures unique == IsUnique(Snapshot(), Config(), isInsert)
    {
      unique := true;
      if selected.Some? {
        unique := dao.IsAnUniqueEntity(selected.value, isInsert);
      }
    }

    /** persist(action, successMessage); `thrown` is the exception that escapes it. */
    method Persist(action: PersistAction, successKey: Option<string>, fault: Option<DaoFault>)
      returns (thrown: Option<Fault>)
      modifies this`messages, dao
      ensures var p := CrudFlow.Persist(old(Snapshot()), action, successKey, fault);
        Snapshot() == p.state && thrown == p.thrown
    {
      thrown := None;
      if selected.Some? {
        var e := selected.value;
        match action {
          case Insert => dao.Insert(e, fault);
          case Update => dao.Update(e, fault);
          case Delete => dao.Delete(e, fault);
        }
        match fault {
          case None =>
            if successKey.Some? {
              messages := messages + [Message(Info, AppBundle, successKey.value)];
            }
          case Some(OtherFault) =>
          case Some(EjbFault(message, cause)) =>
            var report := EjbReport(message, cause);
            if report.Err? {
              return Some(report.fault);
            }
            messages := messages + [report.value];
        }
      }
    }

    /** create(nextPath); create() is Create(request, None, fault). */
    method Create(request: RequestParams, nextPath: Option<string>, fault: Option<DaoFault>)
      returns (r: Result<string>)
      modifies this`selected, this`messages, dao
      ensures var o := CreateFlow(old(Snapshot()), Config(), request, Some(canCreate), nextPath, fault);
        Snapshot() == o.state && r == o.result
    {
      if !canCreate {
        messages := messages + [CanError];
        return Ok("");
      }
      var loaded := GetSelected(request);
      if loaded.Err? {
        return Err(loaded.fault);
      }
      var unique := SelectedIsUnique(true);
      if !unique {
        messages := messages + [Message(Error, AppBundle, UniqueErrorKey(entityName))];
        return Ok(NextOr(nextPath, IndexPath));
      }
      var thrown := Persist(Insert, Some(CreatedKey(entityName)), fault);
      if thrown.Some? {
        return Err(thrown.value);
      }
      return Ok(NextOr(nextPath, CreatePath));
    }

    /** createOnly(): create without a success message and without a path. */
    method CreateOnly(request: RequestParams, fault: Option<DaoFault>) returns (thrown: Option<Fault>)
      modifies this`selected, this`messages, dao
      ensures var s := CreateOnlyFlow(old(Snapshot()), Config(), request, Some(canCreate), fault);
        Snapshot() == s.state && thrown == s.thrown
    {
      if !canCreate {
        messages := messages + [CanError];
        return None;
      }
      var loaded := GetSelected(request);
      if loaded.Err? {
        return Some(loaded.fault);
      }
      var unique := SelectedIsUnique(true);
      if !unique {
        messages := messages + [Message(Error, AppBundle, UniqueErrorKey(entityName))];
        return None;
      }
      thrown := Persist(Insert, None, fault);
    }

    /**
     * The body edit and editWithoutMessage share: canEdit() loads selected
     * through getSelected, and isAnUniqueEntity(getSelected(), false) calls
     * it a second time.
     */
    method EditAs(request: RequestParams, withMessage: bool, nextPath: Option<string>, fault: Option<DaoFault>)
      returns (r: Result<string>)
      modifies this`selected, this`messages, dao
      ensures var o := EditFlow(old(Snapshot()), Config(), request, Some(canEdit), withMessage, nextPath, fault);
        Snapshot() == o.state && r == o.result
    {
      ghost var before := Snapshot();
      var loaded := GetSelected(request);
      if loaded.Err? {
        return Err(loaded.fault);
      }
      if !canEdit(selected) {
        messages := messages + [CanError];
        return Ok("");
      }
      LoadSelectedIdempotent(before, Config(), request);
      var again := GetSelected(request);
      var unique := SelectedIsUnique(false);
      if !unique {
        messages := messages + [Message(Error, AppBundle, UniqueErrorKey(entityName))];
        return Ok(NextOr(nextPath, IndexPath));
      }
      var key := if withMessage then Some(EditedKey(entityName)) else None;
      var thrown := Persist(Update, key, fault);
      if thrown.Some? {
        return Err(thrown.value);
      }
      if nextPath.Some? {
        return Ok(nextPath.value);
      }
      if selected.None? {
        return Err(NullPointer);
      }
      return Ok(ViewPathPrefix + IdText(selected.value.id));
    }

    /** edit(nextPath); edit() is Edit(request, None, fault). */
    method Edit(request: RequestParams, nextPath: Option<string>, fault: Option<DaoFault>)
      returns (r: Result<string>)
      modifies this`selected, this`messages, dao
      ensures var o := EditFlow(old(Snapshot()), Config(), request, Some(canEdit), true, nextPath, fault);
        Snapshot() == o.state && r == o.result
    {
      r := EditAs(request, true, nextPath, fault);
    }

    /** editWithoutMessage(nextPath): edit without the success message. */
    method EditWithoutMessage(request: RequestParams, nextPath: Option<string>, fault: Option<DaoFault>)
      returns (r: Result<string>)
      modifies this`selected, this`messages, dao
      ensures var o := EditFlow(old(Snapshot()), Config(), request, Some(canEdit), false, nextPath, fault);
        Snapshot() == o.state && r == o.result
    {
      r := EditAs(request, false, nextPath, fault);
    }

    /** remove(nextPath); remove() is Remove(request, None, fault). */
    method Remove(request: RequestParams, nextPath: Option<string>, fault: Option<DaoFault>)
      returns (r: Result<string>)
      modifies this`selected, this`messages, dao
      ensures var o := RemoveFlow(old(Snapshot()), Config(), request, Some(canRemove), nextPath, fault);
        Snapshot() == o.state && r == o.result
    {
      var loaded := GetSelected(request);
      if loaded.Err? {
        return Err(loaded.fault);
      }
      if !canRemove(selected) {
        messages := messages + [CanError];
        return Ok("");
      }
      var thrown := Persist(Delete, Some(RemovedKey(entityName)), fault);
      if thrown.Some? {
        return Err(thrown.value);
      }
      selected := None;
      return Ok(NextOr(nextPath, RemovedPath));
    }

    /** canView(): canView(getSelected()). */
    method CanView(request: RequestParams) returns (r: Result<bool>)
      modifies this`selected
      ensures var l := LoadSelected(old(Snapshot()), Config(), request);
        && (l.Ok? ==> Snapshot() == l.value && r == Ok(canView(l.value.selected)))
        && (l.Err? ==> Snapshot() == old(Snapshot()) && r == Err(l.fault))
    {
      var loaded := GetSelected(request);
      if loaded.Err? {
        return Err(loaded.fault);
      }
      r := Ok(canView(selected));
    }

    /** canEdit(): canEdit(getSelected()). */
    method CanEdit(request: RequestParams) returns (r: Result<bool>)
      modifies this`selected
      ensures var l := LoadSelected(old(Snapshot()), Config(), request);
        && (l.Ok? ==> Snapshot() == l.value && r == Ok(canEdit(l.value.selected)))
        && (l.Err? ==> Snapshot() == old(Snapshot()) && r == Err(l.fault))
    {
      var loaded := GetSelected(request);
      if loaded.Err? {
        return Err(loaded.fault);
      }
      r := Ok(canEdit(selected));
    }

    /** canRemove(): canRemove(getSelected()). */
    method CanRemove(request: RequestParams) returns (r: Result<bool>)
      modifies this`selected
      ensures var l := LoadSelected(old(Snapshot()), Config(), request);
        && (l.Ok? ==> Snapshot() == l.value && r == Ok(canRemove(l.value.selected)))
        && (l.Err? ==> Snapshot() == old(Snapshot()) && r == Err(l.fault))
    {
      var loaded := GetSelected(request);
      if loaded.Err? {
        return Err(loaded.fault);
      }
      r := Ok(canRemove(selected));
    }
  }
}
