/**
 * The action flow the three CRUD bean generations (AbstractJsfCrudMb,
 * AbstractJSFCRUDMB and AbstractController) share: loading the selected
 * entity from the "id" request parameter, the uniqueness gate, the one DAO
 * write persist dispatches, the message it leaves and the redirect path an
 * action returns. Each flow here is the specification a bean method is
 * proved against; the lemmas state what the flows promise.
 */
module CrudFlow {
  import opened Wrappers
  import opened JavaText
  import opened JavaNumbers
  import opened Entity
  import opened DaoCommon
  import opened UrlParams
  import Converter

  /** A Java class's simple name, never empty for the entity class E. */
  type ClassName = s: string | |s| > 0 witness "E"

  datatype Severity = Info | Error

  /** The framework's generic-messages bundle and the application's app-messages bundle. */
  datatype Bundle = GenericBundle | AppBundle

  /** A FacesMessage: its severity, and the bundle key it is read from (or the text it carries). */
  datatype Message = Message(severity: Severity, bundle: Bundle, key: string)

  /**
   * What a bean action reads and changes: the bean's selected entity and
   * message log, and its DAO's datasource and write log.
   */
  datatype State = State(selected: Option<Entity>, messages: seq<Message>, rows: seq<Entity>, writes: seq<Write>)

  /** The state after a void step, and the exception it threw, if any. */
  datatype Step = Step(state: State, thrown: Option<Fault>)

  /** The state after an action, and the path it returned or the exception it threw. */
  datatype Outcome = Outcome(state: State, result: Result<string>)

  /** What a bean is built over: E's simple name, E's id class and its DAO's getUniqueParams. */
  datatype Setup = Setup(entityName: ClassName, kind: IdKind, uniqueParams: Entity -> Option<Params>)

  const IndexPath: string := "index.jsf?faces-redirect=true"
  const CreatePath: string := "create.jsf?faces-redirect=true"
  const ViewPathPrefix: string := "view.jsf?faces-redirect=true&id="
  const RemovedPath: string := "/index.jsf?faces-redirect=true"

  /** The refusal every permission gate reports. */
  const CanError: Message := Message(Error, GenericBundle, "can.error.generic")

  /** The simple name with its first character lower-cased. */
  function LcFirst(name: ClassName): string {
    [LowerChar(name[0])] + name[1..]
  }

  function UniqueErrorKey(name: ClassName): string {
    LcFirst(name) + ".persistence.unique.error"
  }

  function CreatedKey(name: ClassName): string {
    LcFirst(name) + ".persistence.created"
  }

  function EditedKey(name: ClassName): string {
    LcFirst(name) + ".persistence.edited"
  }

  function RemovedKey(name: ClassName): string {
    LcFirst(name) + ".persistence.removed"
  }

  /** nextPath when the caller gave one, the action's default otherwise. */
  function NextOr(nextPath: Option<string>, default: string): string {
    if nextPath.Some? then nextPath.value else default
  }

  /** The state with one more message in the log. */
  function Say(st: State, m: Message): State {
    st.(messages := st.messages + [m])
  }

  /**
   * getSelected: a selected entity is kept; otherwise the "id" parameter,
   * when present, is parsed by E's id class and looked up. A number that
   * does not parse is the NumberFormatException parseLong, parseInt or
   * parseShort throws; an id with no row leaves selected null.
   */
  function LoadSelected(st: State, setup: Setup, request: RequestParams): (r: Result<State>)
    ensures st.selected.Some? ==> r == Ok(st)
    ensures GetUrlStringParam(request, "id").None? ==> r == Ok(st)
    ensures r.Ok? ==> r.value == st.(selected := r.value.selected)
    ensures r.Ok? && st.selected.None? && r.value.selected.Some? ==>
      r.value.selected.value in st.rows
      && r.value.selected.value.id == Converter.GetIdFromString(setup.kind, request["id"])
    ensures r.Err? <==> st.selected.None? && GetUrlStringParam(request, "id").Some?
                        && Converter.GetIdFromString(setup.kind, request["id"]).None?
    ensures r.Err? ==> r.fault == NumberFormat && setup.kind != StringKind
    ensures r.Ok? && st.selected.None? && GetUrlStringParam(request, "id").Some? ==>
      (r.value.selected.None? <==>
         forall x :: x in st.rows ==> x.id != Converter.GetIdFromString(setup.kind, request["id"]))
  {
    if st.selected.Some? then Ok(st)
    else
      match GetUrlStringParam(request, "id")
      case None => Ok(st)
      case Some(idString) =>
        match Converter.GetIdFromString(setup.kind, idString)
        case None => Err(NumberFormat)
        case Some(id) => Ok(st.(selected := FirstWithId(st.rows, id)))
  }

  /**
   * isAnUniqueEntity(getSelected(), isInsert) on the datasource. A null
   * selected entity counts as unique: getUniqueParams(null) is taken to be
   * null.
   */
  predicate IsUnique(st: State, setup: Setup, isInsert: bool) {
    st.selected.None? || UniqueIn(st.rows, setup.uniqueParams, st.selected.value, isInsert)
  }

  /**
   * The catch of EJBException: the cause's localized message from
   * app-messages when it is not empty, else the exception's own message or
   * "persistence.error.generic" from generic-messages. A cause whose message
   * is null makes msg.length() throw a NullPointerException.
   */
  function EjbReport(message: Option<string>, cause: Cause): (r: Result<Message>)
    ensures r.Err? <==> cause.Cause? && cause.message.None?
    ensures r.Ok? ==> r.value.severity == Error
    ensures r.Ok? && cause.Cause? && cause.message.value != "" ==>
      r.value == Message(Error, AppBundle, cause.message.value)
    ensures r.Ok? && (cause.NoCause? || cause.message.value == "") ==>
      r.value == Message(Error, GenericBundle,
                         if message.Some? && message.value != "" then message.value else "persistence.error.generic")
  {
    if cause.Cause? && cause.message.None? then Err(NullPointer)
    else
      var msg := if cause.Cause? then cause.message.value else "";
      if |msg| > 0 then Ok(Message(Error, AppBundle, msg))
      else if message.Some? && |message.value| > 0 then Ok(Message(Error, GenericBundle, message.value))
      else Ok(Message(Error, GenericBundle, "persistence.error.generic"))
  }

  /**
   * persist(action, successMessage): nothing when selected is null;
   * otherwise exactly one DAO write of the selected entity, then the
   * success message when its key is not null, or the report of the
   * exception the write raised.
   */
  function Persist(st: State, action: PersistAction, successKey: Option<string>, fault: Option<DaoFault>): (r: Step)
    ensures st.selected.None? ==> r == Step(st, None)
    ensures r.state.selected == st.selected
    ensures st.selected.Some? ==> r.state.writes == st.writes + [Write(action, st.selected.value, fault.None?)]
    ensures r.state.rows == if st.selected.Some? && fault.None? then Applied(st.rows, action, st.selected.value) else st.rows
    ensures st.selected.Some? && fault.None? && successKey.Some? ==>
      r.state.messages == st.messages + [Message(Info, AppBundle, successKey.value)]
    ensures fault.None? && successKey.None? ==> r.state.messages == st.messages
    ensures fault.Some? ==> forall i | |st.messages| <= i < |r.state.messages| :: r.state.messages[i].severity == Error
    ensures r.thrown.Some? ==> r.thrown == Some(NullPointer) && fault.Some? && fault.value.EjbFault?
  {
    if st.selected.None? then Step(st, None)
    else
      var e := st.selected.value;
      var tried := st.(writes := st.writes + [Write(action, e, fault.None?)]);
      match fault
      case None =>
        var done := tried.(rows := Applied(st.rows, action, e));
        if successKey.Some? then Step(Say(done, Message(Info, AppBundle, successKey.value)), None)
        else Step(done, None)
      case Some(OtherFault) => Step(tried, None)
      case Some(EjbFault(message, cause)) =>
        match EjbReport(message, cause)
        case Ok(m) => Step(Say(tried, m), None)
        case Err(f) => Step(tried, Some(f))
  }

  /** The uniqueness gate, then the write: the unique error when it fails, persist otherwise. */
  function CheckedPersist(
    st: State, setup: Setup, action: PersistAction, isInsert: bool,
    successKey: Option<string>, fault: Option<DaoFault>): Step
  {
    if !IsUnique(st, setup, isInsert) then
      Step(Say(st, Message(Error, AppBundle, UniqueErrorKey(setup.entityName))), None)
    else
      Persist(st, action, successKey, fault)
  }

  /**
   * A flow's footprint: the message log and the write log only grow, each
   * by at most one entry; a new write is of the flow's action; and the
   * datasource changes only by that write taking effect.
   */
  predicate Bounded(before: State, after: State, action: PersistAction) {
    var n, w := |before.messages|, |before.writes|;
    && (after.messages == before.messages
        || (|after.messages| == n + 1 && after.messages[..n] == before.messages))
    && (after.writes == before.writes
        || (|after.writes| == w + 1 && after.writes[..w] == before.writes && after.writes[w].action == action))
    && (after.rows == before.rows
        || (|after.writes| == w + 1 && after.writes[w].done
            && after.rows == Applied(before.rows, action, after.writes[w].entity)))
  }

  /** create(nextPath); canCreate is None for a bean without permission gates. */
  function CreateFlow(
    st: State, setup: Setup, request: RequestParams, canCreate: Option<bool>,
    nextPath: Option<string>, fault: Option<DaoFault>): (r: Outcome)
    ensures Bounded(st, r.state, Insert)
    ensures canCreate == Some(false) ==> r == Outcome(Say(st, CanError), Ok(""))
    ensures r.result.Err? ==> r.state.rows == st.rows
  {
    if canCreate == Some(false) then Outcome(Say(st, CanError), Ok(""))
    else
      match LoadSelected(st, setup, request)
      case Err(f) => Outcome(st, Err(f))
      case Ok(loaded) =>
        var p := CheckedPersist(loaded, setup, Insert, true, Some(CreatedKey(setup.entityName)), fault);
        if p.thrown.Some? then Outcome(p.state, Err(p.thrown.value))
        else if IsUnique(loaded, setup, true) then Outcome(p.state, Ok(NextOr(nextPath, CreatePath)))
        else Outcome(p.state, Ok(NextOr(nextPath, IndexPath)))
  }

  /** createOnly(): create without the success message and without a path. */
  function CreateOnlyFlow(
    st: State, setup: Setup, request: RequestParams, canCreate: Option<bool>,
    fault: Option<DaoFault>): (r: Step)
    ensures Bounded(st, r.state, Insert)
    ensures forall i | |st.messages| <= i < |r.state.messages| :: r.state.messages[i].severity == Error
  {
    if canCreate == Some(false) then Step(Say(st, CanError), None)
    else
      match LoadSelected(st, setup, request)
      case Err(f) => Step(st, Some(f))
      case Ok(loaded) => CheckedPersist(loaded, setup, Insert, true, None, fault)
  }

  /**
   * edit(nextPath) when withMessage, editWithoutMessage(nextPath) otherwise.
   * canEdit is None for a bean without permission gates; a gate is asked
   * about the selected entity getSelected has loaded. The default path
   * dereferences selected, so a null one throws.
   */
  function EditFlow(
    st: State, setup: Setup, request: RequestParams, canEdit: Option<Option<Entity> -> bool>,
    withMessage: bool, nextPath: Option<string>, fault: Option<DaoFault>): (r: Outcome)
    ensures Bounded(st, r.state, Update)
    ensures !withMessage ==> forall i | |st.messages| <= i < |r.state.messages| :: r.state.messages[i].severity == Error
  {
    match LoadSelected(st, setup, request)
    case Err(f) => Outcome(st, Err(f))
    case Ok(loaded) =>
      if canEdit.Some? && !canEdit.value(loaded.selected) then Outcome(Say(loaded, CanError), Ok(""))
      else
        var key := if withMessage then Some(EditedKey(setup.entityName)) else None;
        var p := CheckedPersist(loaded, setup, Update, false, key, fault);
        if p.thrown.Some? then Outcome(p.state, Err(p.thrown.value))
        else if !IsUnique(loaded, setup, false) then Outcome(p.state, Ok(NextOr(nextPath, IndexPath)))
        else if nextPath.Some? then Outcome(p.state, Ok(nextPath.value))
        else if p.state.selected.None? then Outcome(p.state, Err(NullPointer))
        else Outcome(p.state, Ok(ViewPathPrefix + IdText(p.state.selected.value.id)))
  }

  /** The delete persist of remove, after which selected is null. */
  function Removal(st: State, setup: Setup, nextPath: Option<string>, fault: Option<DaoFault>): (r: Outcome)
    ensures Bounded(st, r.state, Delete)
    ensures r.result.Ok? ==> r.state.selected.None? && r.result.value == NextOr(nextPath, RemovedPath)
  {
    var p := Persist(st, Delete, Some(RemovedKey(setup.entityName)), fault);
    if p.thrown.Some? then Outcome(p.state, Err(p.thrown.value))
    else Outcome(p.state.(selected := None), Ok(NextOr(nextPath, RemovedPath)))
  }

  /**
   * remove(nextPath): no uniqueness check. With a gate, getSelected loads
   * the entity the gate is asked about; without one (canRemove None) the
   * selected field is deleted as it stands.
   */
  function RemoveFlow(
    st: State, setup: Setup, request: RequestParams, canRemove: Option<Option<Entity> -> bool>,
    nextPath: Option<string>, fault: Option<DaoFault>): (r: Outcome)
    ensures Bounded(st, r.state, Delete)
  {
    if canRemove.None? then Removal(st, setup, nextPath, fault)
    else
      match LoadSelected(st, setup, request)
      case Err(f) => Outcome(st, Err(f))
      case Ok(loaded) =>
        if !canRemove.value(loaded.selected) then Outcome(Say(loaded, CanError), Ok(""))
        else Removal(loaded, setup, nextPath, fault)
  }

  // ---------------------------------------------------------------------
  // What the flows promise
  // ---------------------------------------------------------------------

  /** Calling getSelected a second time changes nothing: once is as good as twice. */
  lemma LoadSelectedIdempotent(st: State, setup: Setup, request: RequestParams)
    requires LoadSelected(st, setup, request).Ok?
    ensures LoadSelected(LoadSelected(st, setup, request).value, setup, request) == LoadSelected(st, setup, request)
  {
    var loaded := LoadSelected(st, setup, request).value;
    if loaded.selected.None? && GetUrlStringParam(request, "id").Some? {
      var id := Converter.GetIdFromString(setup.kind, request["id"]).value;
      assert FirstWithId(st.rows, id).None?;
      assert loaded.rows == st.rows;
    }
  }

  /**
   * The id text of an entity the datasource holds alone with its id, given
   * as the "id" parameter, loads exactly that entity. This is the link the
   * default path of edit writes.
   */
  lemma ViewLinkLoadsEntity(st: State, setup: Setup, request: RequestParams, e: Entity)
    requires st.selected.None? && e in st.rows
    requires e.id.Some? && HasKind(e.id.value, setup.kind)
    requires e.id.value.StringId? ==> e.id.value.text != "" && e.id.value.text != "null"
    requires forall x :: x in st.rows && x.id == e.id ==> x == e
    requires "id" in request && request["id"] == IdText(e.id)
    ensures LoadSelected(st, setup, request) == Ok(st.(selected := Some(e)))
  {
    Converter.IdTextRoundTrip(setup.kind, e.id.value);
    if !e.id.value.StringId? {
      ToDecimalShape(Converter.IdNumber(e.id.value));
    }
    assert GetUrlStringParam(request, "id") == Some(IdText(e.id));
  }

  /**
   * create on a unique entity that loads and a write that succeeds: exactly
   * one insert, which the datasource takes, the created message, and the
   * caller's path or the create page.
   */
  lemma CreateInsertsUnique(
    st: State, setup: Setup, request: RequestParams, canCreate: Option<bool>,
    nextPath: Option<string>, e: Entity)
    requires canCreate != Some(false)
    requires LoadSelected(st, setup, request) == Ok(st.(selected := Some(e)))
    requires UniqueIn(st.rows, setup.uniqueParams, e, true)
    ensures var r := CreateFlow(st, setup, request, canCreate, nextPath, None);
      && r.result == Ok(NextOr(nextPath, CreatePath))
      && r.state.writes == st.writes + [Write(Insert, e, true)]
      && r.state.rows == st.rows + [e]
      && r.state.messages == st.messages + [Message(Info, AppBundle, CreatedKey(setup.entityName))]
  {
  }

  /**
   * create on an entity whose unique attributes another row already has:
   * no write at all, the unique error, and the caller's path or the index.
   */
  lemma CreateRejectsDuplicate(
    st: State, setup: Setup, request: RequestParams, canCreate: Option<bool>,
    nextPath: Option<string>, fault: Option<DaoFault>, e: Entity, other: Entity)
    requires canCreate != Some(false)
    requires LoadSelected(st, setup, request) == Ok(st.(selected := Some(e)))
    requires other in st.rows && setup.uniqueParams(e).Some? && setup.uniqueParams(other) == setup.uniqueParams(e)
    ensures var r := CreateFlow(st, setup, request, canCreate, nextPath, fault);
      && r.result == Ok(NextOr(nextPath, IndexPath))
      && r.state.writes == st.writes && r.state.rows == st.rows
      && r.state.messages == st.messages + [Message(Error, AppBundle, UniqueErrorKey(setup.entityName))]
  {
    var p := setup.uniqueParams(e).value;
    assert other in Matching(st.rows, setup.uniqueParams, p);
  }

  /**
   * createOnly does what create does to the datasource, the write log and
   * selected; its messages are create's without the success message.
   */
  lemma CreateOnlyMirrorsCreate(
    st: State, setup: Setup, request: RequestParams, canCreate: Option<bool>,
    nextPath: Option<string>, fault: Option<DaoFault>)
    ensures var c := CreateFlow(st, setup, request, canCreate, nextPath, fault);
      var co := CreateOnlyFlow(st, setup, request, canCreate, fault);
      && co.state.rows == c.state.rows && co.state.writes == c.state.writes
      && co.state.selected == c.state.selected
      && (c.state.messages == co.state.messages
          || c.state.messages == co.state.messages + [Message(Info, AppBundle, CreatedKey(setup.entityName))])
      && (co.thrown.Some? <==> c.result.Err?)
  {
  }

  /**
   * editWithoutMessage does what edit does to the datasource, the write log
   * and selected, and returns the same; its messages are edit's without the
   * success message.
   */
  lemma EditWithoutMessageMirrorsEdit(
    st: State, setup: Setup, request: RequestParams, canEdit: Option<Option<Entity> -> bool>,
    nextPath: Option<string>, fault: Option<DaoFault>)
    ensures var ed := EditFlow(st, setup, request, canEdit, true, nextPath, fault);
      var quiet := EditFlow(st, setup, request, canEdit, false, nextPath, fault);
      && quiet.state.rows == ed.state.rows && quiet.state.writes == ed.state.writes
      && quiet.state.selected == ed.state.selected && quiet.result == ed.result
      && (ed.state.messages == quiet.state.messages
          || ed.state.messages == quiet.state.messages + [Message(Info, AppBundle, EditedKey(setup.entityName))])
  {
  }

  /**
   * edit (or editWithoutMessage) on an entity whose unique attributes a
   * different stored row already has: no write at all, the unique error,
   * and the caller's path or the index.
   */
  lemma EditRejectsDuplicate(
    st: State, setup: Setup, request: RequestParams, canEdit: Option<Option<Entity> -> bool>,
    withMessage: bool, nextPath: Option<string>, fault: Option<DaoFault>, e: Entity, other: Entity)
    requires LoadSelected(st, setup, request) == Ok(st.(selected := Some(e)))
    requires canEdit.None? || canEdit.value(Some(e))
    requires other in st.rows && setup.uniqueParams(e).Some? && setup.uniqueParams(other) == setup.uniqueParams(e)
    requires !Equals(e, other)
    ensures var r := EditFlow(st, setup, request, canEdit, withMessage, nextPath, fault);
      && r.result == Ok(NextOr(nextPath, IndexPath))
      && r.state.writes == st.writes && r.state.rows == st.rows
      && r.state.messages == st.messages + [Message(Error, AppBundle, UniqueErrorKey(setup.entityName))]
  {
    var p := setup.uniqueParams(e).value;
    assert other in Matching(st.rows, setup.uniqueParams, p);
  }

  /**
   * edit with no path given, on an entity that passes the update check and
   * a write that succeeds: the update is written and the view page of the
   * entity's id is returned.
   */
  lemma EditReturnsViewPath(
    st: State, setup: Setup, request: RequestParams, canEdit: Option<Option<Entity> -> bool>,
    withMessage: bool, e: Entity)
    requires LoadSelected(st, setup, request) == Ok(st.(selected := Some(e))) && e in st.rows
    requires canEdit.None? || canEdit.value(Some(e))
    requires UniqueIn(st.rows, setup.uniqueParams, e, false)
    ensures var r := EditFlow(st, setup, request, canEdit, withMessage, None, None);
      && r.result == Ok(ViewPathPrefix + IdText(e.id))
      && r.state.writes == st.writes + [Write(Update, e, true)]
      && r.state.rows == Replaced(st.rows, e)
      && e in r.state.rows
  {
    var k :| 0 <= k < |st.rows| && st.rows[k] == e;
    EqualsIff(e, e);
    assert Replaced(st.rows, e)[k] == e;
  }

  /**
   * The update check passes for an entity whose only namesakes in the
   * datasource are itself, so editing it again is never refused.
   */
  lemma UpdateCheckAcceptsItself(rows: seq<Entity>, uniqueParams: Entity -> Option<Params>, e: Entity)
    requires forall x :: x in rows && uniqueParams(x) == uniqueParams(e) ==> Equals(e, x)
    ensures UniqueIn(rows, uniqueParams, e, false)
  {
  }

  /**
   * edit with no path given when no entity could be loaded: nothing is
   * written and selected.getEntityId() throws.
   */
  lemma EditWithoutEntityThrows(
    st: State, setup: Setup, request: RequestParams, canEdit: Option<Option<Entity> -> bool>,
    withMessage: bool, fault: Option<DaoFault>)
    requires LoadSelected(st, setup, request) == Ok(st)
    requires st.selected.None?
    requires canEdit.None? || canEdit.value(None)
    ensures var r := EditFlow(st, setup, request, canEdit, withMessage, None, fault);
      r == Outcome(st, Err(NullPointer))
  {
  }

  /** remove, when it is allowed and returns, always leaves selected null. */
  lemma RemoveClearsSelected(
    st: State, setup: Setup, request: RequestParams, canRemove: Option<Option<Entity> -> bool>,
    nextPath: Option<string>, fault: Option<DaoFault>)
    requires canRemove.Some? ==> LoadSelected(st, setup, request).Ok?
    requires canRemove.Some? ==> canRemove.value(LoadSelected(st, setup, request).value.selected)
    ensures var r := RemoveFlow(st, setup, request, canRemove, nextPath, fault);
      r.result.Ok? ==> r.state.selected.None? && r.result.value == NextOr(nextPath, RemovedPath)
  {
  }

  /** remove never consults getUniqueParams: any other hook gives the same outcome. */
  lemma RemoveIgnoresUniqueness(
    st: State, setup: Setup, other: Entity -> Option<Params>, request: RequestParams,
    canRemove: Option<Option<Entity> -> bool>, nextPath: Option<string>, fault: Option<DaoFault>)
    ensures RemoveFlow(st, setup, request, canRemove, nextPath, fault)
         == RemoveFlow(st, setup.(uniqueParams := other), request, canRemove, nextPath, fault)
  {
    var setup' := setup.(uniqueParams := other);
    assert LoadSelected(st, setup, request) == LoadSelected(st, setup', request);
    assert RemovedKey(setup.entityName) == RemovedKey(setup'.entityName);
  }

  /**
   * Without a gate, remove deletes the selected field as it stands: with
   * nothing selected it writes nothing, even when the request names an id.
   */
  lemma UngatedRemoveNeedsSelection(
    st: State, setup: Setup, request: RequestParams, nextPath: Option<string>, fault: Option<DaoFault>)
    requires st.selected.None?
    ensures RemoveFlow(st, setup, request, None, nextPath, fault) == Outcome(st, Ok(NextOr(nextPath, RemovedPath)))
  {
  }

  /**
   * A denied gate (or a refused permission) never writes: the datasource and
   * the write log are as they were.
   */
  lemma DeniedGatesNeverWrite(
    st: State, setup: Setup, request: RequestParams,
    canEdit: Option<Entity> -> bool, canRemove: Option<Entity> -> bool,
    withMessage: bool, nextPath: Option<string>, fault: Option<DaoFault>)
    requires LoadSelected(st, setup, request).Ok?
    requires !canEdit(LoadSelected(st, setup, request).value.selected)
    requires !canRemove(LoadSelected(st, setup, request).value.selected)
    ensures var ed := EditFlow(st, setup, request, Some(canEdit), withMessage, nextPath, fault);
      ed.result == Ok("") && ed.state.rows == st.rows && ed.state.writes == st.writes
    ensures var rm := RemoveFlow(st, setup, request, Some(canRemove), nextPath, fault);
      rm.result == Ok("") && rm.state.rows == st.rows && rm.state.writes == st.writes
    ensures var rm := RemoveFlow(st, setup, request, Some(canRemove), nextPath, fault);
      rm.state.messages == st.messages + [CanError]
  {
  }
}
