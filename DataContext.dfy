/** The data provider of context/DataContext.tsx: five in-memory collections, loaded once at
    start-up from the keyed store (IndexedDB, one value under the key "root" per object store)
    with a fallback to the legacy flat store (localStorage, JSON text), and written back to the
    keyed store whole after every change. */
module DataContext {
  import opened Types
  import opened Collections

  /** The three entity collections. */
  datatype EntityList = CustomerList | RplList | ZymeList

  /** IndexedDB object store of each collection. */
  function StoreName(l: EntityList): string
  {
    match l
    case CustomerList => "customers"
    case RplList => "rpls"
    case ZymeList => "zyme"
  }

  function CommentStoreName(cat: Category): string
  {
    match cat
    case General => "general_comments"
    case Aprv => "aprv_comments"
  }

  /** localStorage key of each collection in the older storage scheme. */
  function LegacyKey(l: EntityList): string
  {
    "app_" + StoreName(l)
  }

  function CommentLegacyKey(cat: Category): string
  {
    "app_" + CommentStoreName(cat)
  }

  /** What `JSON.parse(localStorage.getItem(key))` gives for a non-empty entry: an array, `null`,
      or an exception for text that is not JSON. */
  datatype Legacy<T> = Json(items: seq<T>) | JsonNull | Garbled

  /** One step of `loadData`: the value handed to `setX` and whether it was written back to the
      keyed store, or an exception that leaves the `try`. */
  datatype Step<T> = Loaded(items: seq<T>, writeBack: bool) | Threw

  /** The five collections as values. */
  datatype State = State(
    customers: seq<Entity>,
    rpls: seq<Entity>,
    zyme: seq<Entity>,
    general: seq<CommentItem>,
    aprv: seq<CommentItem>)
  {
    function Entities(l: EntityList): seq<Entity>
    {
      match l
      case CustomerList => customers
      case RplList => rpls
      case ZymeList => zyme
    }

    function Comments(cat: Category): seq<CommentItem>
    {
      match cat
      case General => general
      case Aprv => aprv
    }

    function WithEntities(l: EntityList, s: seq<Entity>): State
    {
      match l
      case CustomerList => this.(customers := s)
      case RplList => this.(rpls := s)
      case ZymeList => this.(zyme := s)
    }

    function WithComments(cat: Category, s: seq<CommentItem>): State
    {
      match cat
      case General => this.(general := s)
      case Aprv => this.(aprv := s)
    }
  }

  const Empty := State([], [], [], [], [])

  /** Load step of an entity collection: a stored value is used as it is; otherwise the legacy
      array (written back only if non-empty), or `[]`. */
  function EntityStep(stored: Option<seq<Entity>>, legacy: Option<Legacy<Entity>>): Step<Entity>
  {
    match stored
    case Some(s) => Loaded(s, false)
    case None =>
      match legacy
      case None => Loaded([], false)
      case Some(Json(xs)) => Loaded(xs, |xs| > 0)
      case Some(JsonNull) => Loaded([], false)
      case Some(Garbled) => Threw
  }

  /** Load step of a comment collection: a stored value is used as it is; otherwise the legacy
      array, or the built-in defaults when there is none, and the result is always written back. */
  function CommentStep(stored: Option<seq<CommentItem>>, legacy: Option<Legacy<CommentItem>>, defaults: seq<CommentItem>): Step<CommentItem>
  {
    match stored
    case Some(s) => Loaded(s, false)
    case None =>
      match legacy
      case None => Loaded(defaults, true)
      case Some(Json(xs)) => Loaded(xs, true)
      case Some(JsonNull) => Loaded(defaults, true)
      case Some(Garbled) => Threw
  }

  /** `dbService.get` answers null when the database cannot be opened, and `dbService.set`
      rethrows, so an unavailable store reads as absent and a write-back throws. */
  function EntityOutcome(stores: map<string, seq<Entity>>, legacy: map<string, Legacy<Entity>>, available: bool, l: EntityList): Step<Entity>
  {
    var stored := if available && StoreName(l) in stores then Some(stores[StoreName(l)]) else None;
    var fallback := if LegacyKey(l) in legacy then Some(legacy[LegacyKey(l)]) else None;
    var step := EntityStep(stored, fallback);
    if step.Loaded? && step.writeBack && !available then Threw else step
  }

  function CommentOutcome(stores: map<string, seq<CommentItem>>, legacy: map<string, Legacy<CommentItem>>, available: bool, cat: Category, defaults: seq<CommentItem>): Step<CommentItem>
  {
    var stored := if available && CommentStoreName(cat) in stores then Some(stores[CommentStoreName(cat)]) else None;
    var fallback := if CommentLegacyKey(cat) in legacy then Some(legacy[CommentLegacyKey(cat)]) else None;
    var step := CommentStep(stored, fallback, defaults);
    if step.Loaded? && step.writeBack && !available then Threw else step
  }

  /** The entity collections after the first three steps of `loadData`, and whether none threw:
      the first exception leaves that collection and every later one at its initial `[]`. */
  function LoadedEntities(entityStores: map<string, seq<Entity>>, entityLegacy: map<string, Legacy<Entity>>, available: bool): (State, bool)
  {
    var c := EntityOutcome(entityStores, entityLegacy, available, CustomerList);
    if c.Threw? then (Empty, false) else
    var r := EntityOutcome(entityStores, entityLegacy, available, RplList);
    if r.Threw? then (Empty.(customers := c.items), false) else
    var z := EntityOutcome(entityStores, entityLegacy, available, ZymeList);
    if z.Threw? then (Empty.(customers := c.items, rpls := r.items), false) else
    (Empty.(customers := c.items, rpls := r.items, zyme := z.items), true)
  }

  /** The collections after `loadData`: the five steps run in order inside one `try`, so the
      first exception leaves that collection and every later one at its initial `[]`. */
  function LoadedState(
    entityStores: map<string, seq<Entity>>, commentStores: map<string, seq<CommentItem>>,
    entityLegacy: map<string, Legacy<Entity>>, commentLegacy: map<string, Legacy<CommentItem>>,
    available: bool, initialComments: seq<CommentItem>, initialAprvComments: seq<CommentItem>): State
  {
    var (s, ok) := LoadedEntities(entityStores, entityLegacy, available);
    if !ok then s else
    var g := CommentOutcome(commentStores, commentLegacy, available, General, initialComments);
    if g.Threw? then s else
    var a := CommentOutcome(commentStores, commentLegacy, available, Aprv, initialAprvComments);
    if a.Threw? then s.(general := g.items) else
    s.(general := g.items, aprv := a.items)
  }

  /** The keyed store once every collection has been written to it. */
  function SyncedEntityStores(stores: map<string, seq<Entity>>, s: State): map<string, seq<Entity>>
  {
    stores[StoreName(CustomerList) := s.customers][StoreName(RplList) := s.rpls][StoreName(ZymeList) := s.zyme]
  }

  function SyncedCommentStores(stores: map<string, seq<CommentItem>>, s: State): map<string, seq<CommentItem>>
  {
    stores[CommentStoreName(General) := s.general][CommentStoreName(Aprv) := s.aprv]
  }

  class Provider {
    var loading: bool
    var customers: seq<Entity>
    var rpls: seq<Entity>
    var zymeData: seq<Entity>
    var generalComments: seq<CommentItem>
    var aprvComments: seq<CommentItem>

    /** IndexedDB: the array stored under "root" in each object store. */
    var entityStores: map<string, seq<Entity>>
    var commentStores: map<string, seq<CommentItem>>
    /** Whether IndexedDB can be opened at all. */
    const available: bool
    /** localStorage entries of the older storage scheme. */
    var entityLegacy: map<string, Legacy<Entity>>
    var commentLegacy: map<string, Legacy<CommentItem>>

    /** INITIAL_COMMENTS and INITIAL_APRV_COMMENTS. */
    const initialComments: seq<CommentItem>
    const initialAprvComments: seq<CommentItem>

    function Snapshot(): State
      reads this
    {
      State(customers, rpls, zymeData, generalComments, aprvComments)
    }

    /** Once loading is over, the keyed store holds every collection as it is in memory. */
    predicate Valid()
      reads this
    {
      !loading && available ==>
        && (forall l :: StoreName(l) in entityStores && entityStores[StoreName(l)] == Snapshot().Entities(l))
        && (forall cat :: CommentStoreName(cat) in commentStores && commentStores[CommentStoreName(cat)] == Snapshot().Comments(cat))
    }

    constructor (
      entityStores: map<string, seq<Entity>>, commentStores: map<string, seq<CommentItem>>,
      entityLegacy: map<string, Legacy<Entity>>, commentLegacy: map<string, Legacy<CommentItem>>,
      available: bool, initialComments: seq<CommentItem>, initialAprvComments: seq<CommentItem>)
      ensures loading && Snapshot() == Empty && Valid()
      ensures this.entityStores == entityStores && this.commentStores == commentStores
      ensures this.entityLegacy == entityLegacy && this.commentLegacy == commentLegacy
      ensures this.available == available
      ensures this.initialComments == initialComments && this.initialAprvComments == initialAprvComments
    {
      loading := true;
      customers, rpls, zymeData := [], [], [];
      generalComments, aprvComments := [], [];
      this.entityStores, this.commentStores := entityStores, commentStores;
      this.entityLegacy, this.commentLegacy := entityLegacy, commentLegacy;
      this.available := available;
      this.initialComments, this.initialAprvComments := initialComments, initialAprvComments;
    }

    /** The state after `setX(s)` for an entity collection, followed by its persistence effect
        (`if (!loading) dbService.set(...)`, a no-op when the store is unavailable). */
    twostate predicate EntityCommitted(l: EntityList, s: seq<Entity>)
      reads this
    {
      && Snapshot() == old(Snapshot()).WithEntities(l, s)
      && loading == old(loading)
      && entityStores == (if !loading && available then old(entityStores)[StoreName(l) := s] else old(entityStores))
      && commentStores == old(commentStores)
      && entityLegacy == old(entityLegacy) && commentLegacy == old(commentLegacy)
    }

    twostate predicate CommentCommitted(cat: Category, s: seq<CommentItem>)
      reads this
    {
      && Snapshot() == old(Snapshot()).WithComments(cat, s)
      && loading == old(loading)
      && commentStores == (if !loading && available then old(commentStores)[CommentStoreName(cat) := s] else old(commentStores))
      && entityStores == old(entityStores)
      && entityLegacy == old(entityLegacy) && commentLegacy == old(commentLegacy)
    }

    method SetEntities(l: EntityList, s: seq<Entity>)
      requires Valid()
      modifies this
      ensures Valid() && EntityCommitted(l, s)
    {
      match l {
        case CustomerList => customers := s;
        case RplList => rpls := s;
        case ZymeList => zymeData := s;
      }
      if !loading && available {
        entityStores := entityStores[StoreName(l) := s];
      }
    }

    method SetComments(cat: Category, s: seq<CommentItem>)
      requires Valid()
      modifies this
      ensures Valid() && CommentCommitted(cat, s)
    {
      match cat {
        case General => generalComments := s;
        case Aprv => aprvComments := s;
      }
      if !loading && available {
        commentStores := commentStores[CommentStoreName(cat) := s];
      }
    }

    // -------------------------------------------------------------------------
    // loadData

    /** One entity step of `loadData`; `ok` is false when it throws. */
    method LoadEntityList(l: EntityList) returns (ok: bool)
      requires loading
      modifies this
      ensures var step := EntityOutcome(old(entityStores), entityLegacy, available, l);
        && ok == step.Loaded?
        && Snapshot() == (if ok then old(Snapshot()).WithEntities(l, step.items) else old(Snapshot()))
        && entityStores == (if ok && step.writeBack then old(entityStores)[StoreName(l) := step.items] else old(entityStores))
      ensures loading && commentStores == old(commentStores)
      ensures entityLegacy == old(entityLegacy) && commentLegacy == old(commentLegacy)
    {
      var name := StoreName(l);
      var items: seq<Entity>;
      if available && name in entityStores {
        items := entityStores[name];
      } else if LegacyKey(l) !in entityLegacy {
        items := [];
      } else {
        match entityLegacy[LegacyKey(l)] {
          case Garbled =>
            return false;
          case JsonNull =>
            items := [];
          case Json(xs) =>
            items := xs;
            if |xs| > 0 {
              if !available {
                return false;
              }
              entityStores := entityStores[name := xs];
            }
        }
      }
      match l {
        case CustomerList => customers := items;
        case RplList => rpls := items;
        case ZymeList => zymeData := items;
      }
      return true;
    }

    /** One comment step of `loadData`; `ok` is false when it throws. */
    method LoadCommentList(cat: Category) returns (ok: bool)
      requires loading
      modifies this
      ensures var defaults := if cat == General then initialComments else initialAprvComments;
        var step := CommentOutcome(old(commentStores), commentLegacy, available, cat, defaults);
        && ok == step.Loaded?
        && Snapshot() == (if ok then old(Snapshot()).WithComments(cat, step.items) else old(Snapshot()))
        && commentStores == (if ok && step.writeBack then old(commentStores)[CommentStoreName(cat) := step.items] else old(commentStores))
      ensures loading && entityStores == old(entityStores)
      ensures entityLegacy == old(entityLegacy) && commentLegacy == old(commentLegacy)
    {
      var name := CommentStoreName(cat);
      var items: seq<CommentItem>;
      if available && name in commentStores {
        items := commentStores[name];
      } else {
        var legacy := if CommentLegacyKey(cat) in commentLegacy then Some(commentLegacy[CommentLegacyKey(cat)]) else None;
        match legacy {
          case Some(Garbled) =>
            return false;
          case Some(Json(xs)) =>
            items := xs;
          case _ =>
            items := if cat == General then initialComments else initialAprvComments;
        }
        if !available {
          return false;
        }
        commentStores := commentStores[name := items];
      }
      match cat {
        case General => generalComments := items;
        case Aprv => aprvComments := items;
      }
      return true;
    }

    /** The three entity steps of `loadData`'s `try`; `ok` is false when one threw. */
    method RunEntitySteps() returns (ok: bool)
      requires loading && Snapshot() == Empty
      modifies this
      ensures loading
      ensures (Snapshot(), ok) == LoadedEntities(old(entityStores), entityLegacy, available)
      ensures forall s :: SyncedEntityStores(entityStores, s) == SyncedEntityStores(old(entityStores), s)
      ensures !available ==> entityStores == old(entityStores)
      ensures commentStores == old(commentStores)
      ensures entityLegacy == old(entityLegacy) && commentLegacy == old(commentLegacy)
    {
      ghost var es0 := entityStores;
      ok := LoadEntityList(CustomerList);
      if !ok {
        return;
      }
      EntityWriteIsLocal(es0, entityStores, entityLegacy, available, CustomerList);
      ghost var es1 := entityStores;
      ok := LoadEntityList(RplList);
      if !ok {
        return;
      }
      EntityWriteIsLocal(es1, entityStores, entityLegacy, available, RplList);
      ghost var es2 := entityStores;
      ok := LoadEntityList(ZymeList);
      if !ok {
        return;
      }
      EntityWriteIsLocal(es2, entityStores, entityLegacy, available, ZymeList);
    }

    /** The body of `loadData`'s `try`: the five steps in order, stopping at the first exception.
        Write-backs touch only the five object stores. */
    method RunLoadSteps()
      requires loading && Snapshot() == Empty
      modifies this
      ensures loading
      ensures Snapshot() == LoadedState(old(entityStores), old(commentStores), entityLegacy, commentLegacy,
                                        available, initialComments, initialAprvComments)
      ensures forall s :: SyncedEntityStores(entityStores, s) == SyncedEntityStores(old(entityStores), s)
      ensures forall s :: SyncedCommentStores(commentStores, s) == SyncedCommentStores(old(commentStores), s)
      ensures !available ==> entityStores == old(entityStores) && commentStores == old(commentStores)
      ensures entityLegacy == old(entityLegacy) && commentLegacy == old(commentLegacy)
    {
      var ok := RunEntitySteps();
      if !ok {
        return;
      }
      ghost var cs0 := commentStores;
      ok := LoadCommentList(General);
      if !ok {
        return;
      }
      CommentWriteIsLocal(cs0, commentStores, commentLegacy, available, initialAprvComments);
      ghost var cs1 := commentStores;
      ok := LoadCommentList(Aprv);
      SyncAbsorbsAprvWrite(cs1, commentStores);
    }

    /** `loadData` followed by `setLoading(false)` and the five persistence effects it triggers. */
    method Load()
      requires loading && Snapshot() == Empty
      modifies this
      ensures !loading && Valid()
      ensures Snapshot() == LoadedState(old(entityStores), old(commentStores), entityLegacy, commentLegacy,
                                        available, initialComments, initialAprvComments)
      ensures entityStores == if available then SyncedEntityStores(old(entityStores), Snapshot()) else old(entityStores)
      ensures commentStores == if available then SyncedCommentStores(old(commentStores), Snapshot()) else old(commentStores)
      ensures entityLegacy == old(entityLegacy) && commentLegacy == old(commentLegacy)
    {
      RunLoadSteps();
      loading := false;
      if available {
        entityStores := SyncedEntityStores(entityStores, Snapshot());
        commentStores := SyncedCommentStores(commentStores, Snapshot());
      }
    }

    // -------------------------------------------------------------------------
    // Operations exposed to the pages

    /** `addCustomer` / `addRPL` / `addZyme`. */
    method AddEntity(l: EntityList, e: Entity)
      requires Valid()
      modifies this
      ensures Valid() && EntityCommitted(l, Append(old(Snapshot()).Entities(l), e))
    {
      SetEntities(l, Append(Snapshot().Entities(l), e));
    }

    /** `updateCustomer` / `updateRPL` (there is no update for Zyme). */
    method UpdateEntity(l: EntityList, e: Entity)
      requires Valid() && l != ZymeList
      modifies this
      ensures Valid() && EntityCommitted(l, Update(old(Snapshot()).Entities(l), e))
    {
      SetEntities(l, Update(Snapshot().Entities(l), e));
    }

    /** `deleteCustomer` / `deleteRPL` / `deleteZyme`. */
    method DeleteEntity(l: EntityList, id: string)
      requires Valid()
      modifies this
      ensures Valid() && EntityCommitted(l, Delete(old(Snapshot()).Entities(l), id))
    {
      SetEntities(l, Delete(Snapshot().Entities(l), id));
    }

    /** `deleteCustomers` / `deleteRPLs` (there is no bulk delete for Zyme). */
    method DeleteEntities(l: EntityList, ids: seq<string>)
      requires Valid() && l != ZymeList
      modifies this
      ensures Valid() && EntityCommitted(l, DeleteMany(old(Snapshot()).Entities(l), ids))
    {
      SetEntities(l, DeleteMany(Snapshot().Entities(l), ids));
    }

    /** `bulkImportCustomers` / `bulkImportRPL` / `bulkImportZyme`. */
    method ImportEntityBatch(l: EntityList, data: seq<Entity>, gen: IdOracle)
      requires Valid()
      modifies this
      ensures Valid() && EntityCommitted(l, ImportEntities(old(Snapshot()).Entities(l), data, gen))
    {
      SetEntities(l, ImportEntities(Snapshot().Entities(l), data, gen));
    }

    /** `addGeneralComment(text)` with the generated id `newId`. */
    method AddGeneralComment(text: string, newId: string)
      requires Valid()
      modifies this
      ensures Valid() && CommentCommitted(General, Append(old(generalComments), NewGeneralComment(newId, text)))
    {
      SetComments(General, Append(generalComments, NewGeneralComment(newId, text)));
    }

    /** `addAprvComment(title, text, additionalInfo, remarks)` with the generated id `newId`. */
    method AddAprvComment(title: string, text: string, additionalInfo: string, remarks: string, newId: string)
      requires Valid()
      modifies this
      ensures Valid() && CommentCommitted(Aprv, Append(old(aprvComments), NewAprvComment(newId, title, text, additionalInfo, remarks)))
    {
      SetComments(Aprv, Append(aprvComments, NewAprvComment(newId, title, text, additionalInfo, remarks)));
    }

    /** `deleteGeneralComment` / `deleteAprvComment`. */
    method DeleteCommentItem(cat: Category, id: string)
      requires Valid()
      modifies this
      ensures Valid() && CommentCommitted(cat, DeleteComment(old(Snapshot()).Comments(cat), id))
    {
      SetComments(cat, DeleteComment(Snapshot().Comments(cat), id));
    }

    /** `bulkImportGeneralComments` / `bulkImportAprvComments`. */
    method ImportCommentBatch(cat: Category, data: seq<CommentItem>, gen: IdOracle)
      requires Valid()
      modifies this
      ensures Valid() && CommentCommitted(cat, ImportComments(old(Snapshot()).Comments(cat), data, gen, cat))
    {
      SetComments(cat, ImportComments(Snapshot().Comments(cat), data, gen, cat));
    }

    /** The reset in the settings page: `dbService.clear()` empties every object store (and
        fails quietly when the database cannot be opened), `localStorage.clear()` drops the
        legacy entries. The page is then reloaded, which builds a new provider. */
    method ClearStorage()
      modifies this
      ensures entityStores == (if available then map[] else old(entityStores))
      ensures commentStores == (if available then map[] else old(commentStores))
      ensures entityLegacy == map[] && commentLegacy == map[]
      ensures Snapshot() == old(Snapshot()) && loading == old(loading)
    {
      if available {
        entityStores, commentStores := map[], map[];
      }
      entityLegacy, commentLegacy := map[], map[];
    }
  }

  // ---------------------------------------------------------------------------
  // Properties of the load chain

  /** A write-back by step `l` changes no later entity step's outcome and is overwritten by the
      final persistence effects. */
  lemma EntityWriteIsLocal(es: map<string, seq<Entity>>, es': map<string, seq<Entity>>, el: map<string, Legacy<Entity>>, available: bool, l: EntityList)
    requires es' == es || (StoreName(l) in es' && es' == es[StoreName(l) := es'[StoreName(l)]])
    ensures forall k :: k != l ==> EntityOutcome(es', el, available, k) == EntityOutcome(es, el, available, k)
    ensures forall s :: SyncedEntityStores(es', s) == SyncedEntityStores(es, s)
  {
  }

  lemma CommentWriteIsLocal(cs: map<string, seq<CommentItem>>, cs': map<string, seq<CommentItem>>, cl: map<string, Legacy<CommentItem>>, available: bool, a: seq<CommentItem>)
    requires cs' == cs || (CommentStoreName(General) in cs' && cs' == cs[CommentStoreName(General) := cs'[CommentStoreName(General)]])
    ensures CommentOutcome(cs', cl, available, Aprv, a) == CommentOutcome(cs, cl, available, Aprv, a)
    ensures forall s :: SyncedCommentStores(cs', s) == SyncedCommentStores(cs, s)
  {
  }

  lemma SyncAbsorbsAprvWrite(cs: map<string, seq<CommentItem>>, cs': map<string, seq<CommentItem>>)
    requires cs' == cs || (CommentStoreName(Aprv) in cs' && cs' == cs[CommentStoreName(Aprv) := cs'[CommentStoreName(Aprv)]])
    ensures forall s :: SyncedCommentStores(cs', s) == SyncedCommentStores(cs, s)
  {
  }

  /** A value present in the keyed store is used as it is, for every collection. */
  lemma StoredValuesUsedAsIs(
    es: map<string, seq<Entity>>, cs: map<string, seq<CommentItem>>,
    el: map<string, Legacy<Entity>>, cl: map<string, Legacy<CommentItem>>,
    g: seq<CommentItem>, a: seq<CommentItem>)
    requires forall l :: StoreName(l) in es
    requires forall cat :: CommentStoreName(cat) in cs
    ensures var s := LoadedState(es, cs, el, cl, true, g, a);
      && (forall l :: s.Entities(l) == es[StoreName(l)])
      && (forall cat :: s.Comments(cat) == cs[CommentStoreName(cat)])
  {
    assert StoreName(CustomerList) in es && StoreName(RplList) in es && StoreName(ZymeList) in es;
    assert CommentStoreName(General) in cs && CommentStoreName(Aprv) in cs;
  }

  /** First run (both stores empty): empty entity collections, the built-in comment sets,
      and the keyed store then holds exactly that. This is also what a reload after the
      settings page's reset gives: the comment collections come back with their defaults. */
  lemma {:induction false} FirstRun(g: seq<CommentItem>, a: seq<CommentItem>)
    ensures var s := LoadedState(map[], map[], map[], map[], true, g, a);
      && s == State([], [], [], g, a)
      && SyncedEntityStores(map[], s) == map["customers" := [], "rpls" := [], "zyme" := []]
      && SyncedCommentStores(map[], s) == map["general_comments" := g, "aprv_comments" := a]
  {
    assert LegacyKey(CustomerList) == "app_customers";
  }

  /** Migration: with nothing in the keyed store for customers, the legacy array is loaded, and
      once loading is over the keyed store holds it. */
  lemma LegacyCustomersMigrated(
    es: map<string, seq<Entity>>, cs: map<string, seq<CommentItem>>,
    el: map<string, Legacy<Entity>>, cl: map<string, Legacy<CommentItem>>,
    g: seq<CommentItem>, a: seq<CommentItem>, xs: seq<Entity>)
    requires "customers" !in es
    requires "app_customers" in el && el["app_customers"] == Json(xs)
    ensures var s := LoadedState(es, cs, el, cl, true, g, a);
      && s.customers == xs
      && SyncedEntityStores(es, s)["customers"] == xs
  {
    assert LegacyKey(CustomerList) == "app_customers";
  }

  /** One `try` wraps all five steps: unreadable legacy customers JSON leaves every collection
      empty, and the persistence effects that follow then overwrite the stored RPL list with
      `[]`, whatever it held. */
  lemma {:induction false} GarbledLegacyEmptiesEverything(
    es: map<string, seq<Entity>>, cs: map<string, seq<CommentItem>>,
    el: map<string, Legacy<Entity>>, cl: map<string, Legacy<CommentItem>>,
    g: seq<CommentItem>, a: seq<CommentItem>)
    requires "customers" !in es
    requires "app_customers" in el && el["app_customers"] == Garbled
    ensures var s := LoadedState(es, cs, el, cl, true, g, a);
      && s == Empty
      && SyncedEntityStores(es, s)["rpls"] == []
      && SyncedCommentStores(cs, s)["general_comments"] == []
  {
    assert LegacyKey(CustomerList) == "app_customers";
    assert EntityOutcome(es, el, true, CustomerList) == Threw;
  }

  /** Without a usable keyed store every comment write-back throws, so the comment collections
      come up empty instead of with their defaults. */
  lemma {:induction false} UnavailableStoreDropsDefaults(
    es: map<string, seq<Entity>>, cs: map<string, seq<CommentItem>>,
    g: seq<CommentItem>, a: seq<CommentItem>)
    ensures LoadedState(es, cs, map[], map[], false, g, a) == Empty
  {
    assert CommentOutcome(cs, map[], false, General, g) == Threw;
  }
}
