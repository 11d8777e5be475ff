/**
 * AbstractController: the oldest CRUD generation, over the legacy
 * AbstractDAO, with no permission gates, and with the lazily read "begin"
 * and "end" date parameters.
 */
module CrudController {
  import opened Wrappers
  import opened Entity
  import opened DaoCommon
  import opened UrlParams
  import opened CrudFlow
  import Converter
  import ModelDao

  /** A java.util.Date: an instant in milliseconds. */
  datatype Date = Date(millis: int)

  /**
   * The controller's state is `selected`, the cached `all`, the `begin` and
   * `end` dates and the message log; `blank` is the fresh entity
   * getNewEntityInstance makes and `parseDate` the date format
   * getUrlDateParam applies.
   */
  class Controller {
    var selected: Option<Entity>
    var all: Option<seq<Entity>>
    var begin: Option<Date>
    var end: Option<Date>
    var messages: seq<Message>
    const dao: ModelDao.CachingDao
    const entityName: ClassName
    const kind: IdKind
    const blank: Entity
    const parseDate: string -> Option<Date>

    constructor (
      dao: ModelDao.CachingDao, entityName: ClassName, kind: IdKind, blank: Entity,
      parseDate: string -> Option<Date>)
      ensures selected == None && all == None && begin == None && end == None && messages == []
      ensures this.dao == dao && this.entityName == entityName && this.kind == kind && this.blank == blank
      ensures this.parseDate == parseDate
    {
      selected := None;
      all := None;
      begin := None;
      end := None;
      messages := [];
      this.dao := dao;
      this.entityName := entityName;
      this.kind := kind;
      this.blank := blank;
      this.parseDate := parseDate;
    }

    /** What the flows are built over: E's simple name, E's id class, the DAO's getUniqueParams. */
    function Config(): Setup {
      Setup(entityName, kind, dao.uniqueParams)
    }

    /** The part of the bean and its DAO the actions read and change. */
    function Snapshot(): State
      reads this, dao
    {
      State(selected, messages, dao.rows, dao.writes)
    }

    /** getSelected, on the request's parameters. */
    method GetSelected(request: RequestParams) returns (r: Result<Option<Entity>>)
      modifies this`selected
      ensures var l := LoadSelected(old(Snapshot()), Config(), request);
        && (l.Ok? ==> Snapshot() == l.value && r == Ok(selected))
        && (l.Err? ==> Snapshot() == old(Snapshot()) && r == Err(l.fault))
    {
      if selected.None? {
        var idString := GetUrlStringParam(request, "id");
        if idString.Some? && idString.value != "" {
          var id := Converter.GetIdFromString(kind, idString.value);
          if id.None? {
            return Err(NumberFormat);
          }
          selected := dao.GetOne(id.value);
        }
      }
      r := Ok(selected);
    }

    /** getNewSelected: keeps a selected entity, or selects a fresh one. */
    method GetNewSelected() returns (r: Entity)
      modifies this`selected
      ensures old(selected).Some? ==> selected == old(selected)
      ensures old(selected).None? ==> selected == Some(blank)
      ensures selected == Some(r)
    {
      if selected.None? {
        selected := Some(blank);
      }
      r := selected.value;
    }

    /** getBegin: the "begin" parameter, read only while no date is set. */
    method GetBegin(request: RequestParams) returns (r: Option<Date>)
      modifies this`begin
      ensures old(begin).Some? ==> begin == old(begin)
      ensures old(begin).None? ==> begin == GetUrlDateParam(request, "begin", parseDate)
      ensures r == begin
    {
      if begin.None? {
        begin := GetUrlDateParam(request, "begin", parseDate);
      }
      r := begin;
    }

    method SetBegin(begin: Option<Date>)
      modifies this`begin
      ensures this.begin == begin
    {
      this.begin := begin;
    }

    /** getEnd: the "end" parameter, read only while no date is set. */
    method GetEnd(request: RequestParams) returns (r: Option<Date>)
      modifies this`end
      ensures old(end).Some? ==> end == old(end)
      ensures old(end).None? ==> end == GetUrlDateParam(request, "end", parseDate)
      ensures r == end
    {
      if end.None? {
        end := GetUrlDateParam(request, "end", parseDate);
      }
      r := end;
    }

    method SetEnd(end: Option<Date>)
      modifies this`end
      ensures this.end == end
    {
      this.end := end;
    }

    /**
     * getAll(refresh): the controller's cache, copied again from the DAO's
     * getAll() only when it is empty or refresh is asked for. The DAO's
     * getAll() is itself cached, so a refresh rereads the datasource only
     * when the DAO has no list yet.
     */
    method GetAll(refresh: bool) returns (r: seq<Entity>)
      modifies this`all, dao`all
      ensures old(all).None? || refresh ==>
        && all == Some(if old(dao.all).Some? then old(dao.all).value else dao.GetAllNow())
        && dao.all == all
      ensures old(all).Some? && !refresh ==> all == old(all) && dao.all == old(dao.all)
      ensures all == Some(r)
    {
      if all.None? || refresh {
        var list := dao.GetAllCached();
        all := Some(list);
      }
      r := all.value;
    }

    /** getAll(): getAll(false). */
    method GetAllCached() returns (r: seq<Entity>)
      modifies this`all, dao`all
      ensures old(all).None? ==>
        && all == Some(if old(dao.all).Some? then old(dao.all).value else dao.GetAllNow())
        && dao.all == all
      ensures old(all).Some? ==> all == old(all) && dao.all == old(dao.all)
      ensures all == Some(r)
    {
      r := GetAll(false);
    }

    /** isAnUniqueEntity(selected, isInsert) on the DAO, with a null selected taken as unique. */
    method SelectedIsUnique(isInsert: bool) returns (unique: bool)
      ensures unique == IsUnique(Snapshot(), Config(), isInsert)
    {
      unique := true;
      if selected.Some? {
        unique := dao.IsAnUniqueEntity(selected.value, isInsert);
      }
    }

    /** persist(action, successMessage); `thrown` is the exception that escapes it. */
    method Persist(action: PersistAction, successKey: Option<string>, fault: Option<DaoFault>)
      returns (thrown: Option<Fault>)
      modifies this`messages, dao`rows, dao`writes
      ensures var p := CrudFlow.Persist(old(Snapshot()), action, successKey, fault);
        Snapshot() == p.state && thrown == p.thrown
    {
      thrown := None;
      if selected.Some? {
        var e := selected.value;
        match action {
          case Insert => dao.Insert(e, fault);
          case Update => dao.Update(e, fault);
          case Delete => dao.Delete(e, fault);
        }
        match fault {
          case None =>
            if successKey.Some? {
              messages := messages + [Message(Info, AppBundle, successKey.value)];
            }
          case Some(OtherFault) =>
          case Some(EjbFault(message, cause)) =>
            var report := EjbReport(message, cause);
            if report.Err? {
              return Some(report.fault);
            }
            messages := messages + [report.value];
        }
      }
    }

    /** create(nextPath); create() is Create(request, None, fault). */
    method Create(request: RequestParams, nextPath: Option<string>, fault: Option<DaoFault>)
      returns (r: Result<string>)
      modifies this`selected, this`messages, dao`rows, dao`writes
      ensures var o := CreateFlow(old(Snapshot()), Config(), request, None, nextPath, fault);
        Snapshot() == o.state && r == o.result
    {
      var loaded := GetSelected(request);
      if loaded.Err? {
        return Err(loaded.fault);
      }
      var unique := SelectedIsUnique(true);
      if !unique {
        messages := messages + [Message(Error, AppBundle, UniqueErrorKey(entityName))];
        return Ok(NextOr(nextPath, IndexPath));
      }
      var thrown := Persist(Insert, Some(CreatedKey(entityName)), fault);
      if thrown.Some? {
        return Err(thrown.value);
      }
      return Ok(NextOr(nextPath, CreatePath));
    }

    /** createOnly(): create without a success message and without a path. */
    method CreateOnly(request: RequestParams, fault: Option<DaoFault>) returns (thrown: Option<Fault>)
      modifies this`selected, this`messages, dao`rows, dao`writes
      ensures var s := CreateOnlyFlow(old(Snapshot()), Config(), request, None, fault);
        Snapshot() == s.state && thrown == s.thrown
    {
      var loaded := GetSelected(request);
      if loaded.Err? {
        return Some(loaded.fault);
      }
      var unique := SelectedIsUnique(true);
      if !unique {
        messages := messages + [Message(Error, AppBundle, UniqueErrorKey(entityName))];
        return None;
      }
      thrown := Persist(Insert, None, fault);
    }

    /**
     * The body edit and editWithoutMessage share: selected is loaded by the
     * getSelected() passed to isAnUniqueEntity.
     */
    method EditAs(request: RequestParams, withMessage: bool, nextPath: Option<string>, fault: Option<DaoFault>)
      returns (r: Result<string>)
      modifies this`selected, this`messages, dao`rows, dao`writes
      ensures var o := EditFlow(old(Snapshot()), Config(), request, None, withMessage, nextPath, fault);
        Snapshot() == o.state && r == o.result
    {
      var loaded := GetSelected(request);
      if loaded.Err? {
        return Err(loaded.fault);
      }
      var unique := SelectedIsUnique(false);
      if !unique {
        messages := messages + [Message(Error, AppBundle, UniqueErrorKey(entityName))];
        return Ok(NextOr(nextPath, IndexPath));
      }
      var key := if withMessage then Some(EditedKey(entityName)) else None;
      var thrown := Persist(Update, key, fault);
      if thrown.Some? {
        return Err(thrown.value);
      }
      if nextPath.Some? {
        return Ok(nextPath.value);
      }
      if selected.None? {
        return Err(NullPointer);
      }
      return Ok(ViewPathPrefix + IdText(selected.value.id));
    }

    /** edit(nextPath); edit() is Edit(request, None, fault). */
    method Edit(request: RequestParams, nextPath: Option<string>, fault: Option<DaoFault>)
      returns (r: Result<string>)
      modifies this`selected, this`messages, dao`rows, dao`writes
      ensures var o := EditFlow(old(Snapshot()), Config(), request, None, true, nextPath, fault);
        Snapshot() == o.state && r == o.result
    {
      r := EditAs(request, true, nextPath, fault);
    }

    /** editWithoutMessage(nextPath): edit without the success message. */
    method EditWithoutMessage(request: RequestParams, nextPath: Option<string>, fault: Option<DaoFault>)
      returns (r: Result<string>)
      modifies this`selected, this`messages, dao`rows, dao`writes
      ensures var o := EditFlow(old(Snapshot()), Config(), request, None, false, nextPath, fault);
        Snapshot() == o.state && r == o.result
    {
      r := EditAs(request, false, nextPath, fault);
    }

    /**
     * remove(nextPath): deletes the selected field as it stands, without
     * getSelected; remove() is Remove(request, None, fault).
     */
    method Remove(request: RequestParams, nextPath: Option<string>, fault: Option<DaoFault>)
      returns (r: Result<string>)
      modifies this`selected, this`messages, dao`rows, dao`writes
      ensures var o := RemoveFlow(old(Snapshot()), Config(), request, None, nextPath, fault);
        Snapshot() == o.state && r == o.result
    {
      var thrown := Persist(Delete, Some(RemovedKey(entityName)), fault);
      if thrown.Some? {
        return Err(thrown.value);
      }
      selected := None;
      return Ok(NextOr(nextPath, RemovedPath));
    }
  }
}
