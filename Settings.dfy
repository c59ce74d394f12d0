/** The settings page, pages/Settings.tsx: Zyme upload and manual add, the backup workbook, the
    restore that routes each recognised sheet to its bulk import, and the reset. The workbook
    codec is taken as exact: a sheet written by the backup is read back as the same rows. */
module Settings {
  import opened Types
  import opened Seqs
  import opened Collections
  import opened DataContext

  /** Sheet name of each collection, the same for backup and restore. */
  function EntitySheet(l: EntityList): string
  {
    match l
    case CustomerList => "Customers"
    case RplList => "RPL"
    case ZymeList => "Zyme_Data"
  }

  function CommentSheet(cat: Category): string
  {
    match cat
    case General => "General_Comments"
    case Aprv => "APRV_Comments"
  }

  /** A workbook read back from a file: rows by sheet name. Entity and comment rows are kept
      apart; any other sheet is simply a name the restore does not look up. */
  datatype Workbook = Workbook(entitySheets: map<string, seq<Entity>>, commentSheets: map<string, seq<CommentItem>>)

  /** `handleBackup`: the five collections under their sheet names. */
  function Backup(s: State): (w: Workbook)
    ensures w.entitySheets.Keys == {"Customers", "RPL", "Zyme_Data"}
    ensures w.commentSheets.Keys == {"General_Comments", "APRV_Comments"}
    ensures forall l :: EntitySheet(l) in w.entitySheets && w.entitySheets[EntitySheet(l)] == s.Entities(l)
    ensures forall cat :: CommentSheet(cat) in w.commentSheets && w.commentSheets[CommentSheet(cat)] == s.Comments(cat)
  {
    Workbook(
      map["Customers" := s.customers, "RPL" := s.rpls, "Zyme_Data" := s.zyme],
      map["General_Comments" := s.general, "APRV_Comments" := s.aprv])
  }

  /** One `if (backupData[sheet]) bulkImportX(backupData[sheet])` step: the collection after
      it, imported into when its sheet is present and as it was otherwise. */
  function RestoredEntities(s: seq<Entity>, w: Workbook, l: EntityList, gen: IdOracle): seq<Entity>
  {
    if EntitySheet(l) in w.entitySheets then ImportEntities(s, w.entitySheets[EntitySheet(l)], gen) else s
  }

  function RestoredComments(s: seq<CommentItem>, w: Workbook, cat: Category, gen: IdOracle): seq<CommentItem>
  {
    if CommentSheet(cat) in w.commentSheets then ImportComments(s, w.commentSheets[CommentSheet(cat)], gen, cat) else s
  }

  /** The collections after `handleRestore`: every recognised sheet that is present goes to its
      own collection's bulk import, with the id generator `entityGen(l)` or `commentGen(cat)`;
      a collection whose sheet is absent is left as it was. */
  function Restored(s: State, w: Workbook, entityGen: EntityList -> IdOracle, commentGen: Category -> IdOracle): State
  {
    State(
      RestoredEntities(s.customers, w, CustomerList, entityGen(CustomerList)),
      RestoredEntities(s.rpls, w, RplList, entityGen(RplList)),
      RestoredEntities(s.zyme, w, ZymeList, entityGen(ZymeList)),
      RestoredComments(s.general, w, General, commentGen(General)),
      RestoredComments(s.aprv, w, Aprv, commentGen(Aprv)))
  }

  /** Each sheet is routed to its own collection: a collection is imported into exactly when its
      sheet is present, and one whose sheet is absent is left as it was. */
  lemma RestoreRouting(s: State, w: Workbook, entityGen: EntityList -> IdOracle, commentGen: Category -> IdOracle)
    ensures var r := Restored(s, w, entityGen, commentGen);
      && (forall l :: EntitySheet(l) in w.entitySheets ==>
            r.Entities(l) == ImportEntities(s.Entities(l), w.entitySheets[EntitySheet(l)], entityGen(l)))
      && (forall l :: EntitySheet(l) !in w.entitySheets ==> r.Entities(l) == s.Entities(l))
      && (forall cat :: CommentSheet(cat) in w.commentSheets ==>
            r.Comments(cat) == ImportComments(s.Comments(cat), w.commentSheets[CommentSheet(cat)], commentGen(cat), cat))
      && (forall cat :: CommentSheet(cat) !in w.commentSheets ==> r.Comments(cat) == s.Comments(cat))
  {
    var r := Restored(s, w, entityGen, commentGen);
    forall l
      ensures r.Entities(l) == RestoredEntities(s.Entities(l), w, l, entityGen(l))
    {
      match l {
        case CustomerList =>
        case RplList =>
        case ZymeList =>
      }
    }
    forall cat
      ensures r.Comments(cat) == RestoredComments(s.Comments(cat), w, cat, commentGen(cat))
    {
      match cat {
        case General =>
        case Aprv =>
      }
    }
  }

  function SheetLength<T>(sheets: map<string, seq<T>>, name: string): nat
  {
    if name in sheets then |sheets[name]| else 0
  }

  /** The count reported by the restore: the rows of every recognised sheet present, counted
      before the imports drop the ones already there. */
  function RestoreCount(w: Workbook): nat
  {
    SheetLength(w.entitySheets, "Customers") + SheetLength(w.entitySheets, "RPL") + SheetLength(w.entitySheets, "Zyme_Data")
    + SheetLength(w.commentSheets, "General_Comments") + SheetLength(w.commentSheets, "APRV_Comments")
  }

  /** Restoring a backup of the current collections changes nothing, provided every entity
      carries an id: entity rows are then all known ids, and comment rows all known texts or
      titles (or empty ones, which are skipped anyway). */
  lemma {:induction false} RestoreOwnBackupIsNoop(s: State, entityGen: EntityList -> IdOracle, commentGen: Category -> IdOracle)
    requires forall l, e :: e in s.Entities(l) ==> e.id != ""
    ensures Restored(s, Backup(s), entityGen, commentGen) == s
  {
    assert s.Entities(CustomerList) == s.customers && s.Entities(RplList) == s.rpls && s.Entities(ZymeList) == s.zyme;
    ImportOwnEntities(s.customers, entityGen(CustomerList));
    ImportOwnEntities(s.rpls, entityGen(RplList));
    ImportOwnEntities(s.zyme, entityGen(ZymeList));
    ImportOwnComments(s.general, commentGen(General), General);
    ImportOwnComments(s.aprv, commentGen(Aprv), Aprv);
  }

  /** A collection of entities that all carry ids, imported into itself, is unchanged. */
  lemma {:induction false} ImportOwnEntities(s: seq<Entity>, gen: IdOracle)
    requires forall e :: e in s ==> e.id != ""
    ensures ImportEntities(s, s, gen) == s
  {
    assert WithIds(s, gen) == s;
    var ids := Ids(s);
    FilterKeepsNone(s, (d: Entity) => d.id !in ids);
  }

  /** A comment collection imported into itself is unchanged. */
  lemma {:induction false} ImportOwnComments(s: seq<CommentItem>, gen: IdOracle, cat: Category)
    ensures ImportComments(s, s, gen, cat) == s
  {
    var keys := Keys(s, cat);
    FilterKeepsNone(s, (d: CommentItem) => CommentKey(d, cat) != "" && CommentKey(d, cat) !in keys);
  }

  /** An entity saved without an id is appended again by a restore of its own backup. */
  lemma RestoreOwnBackupReaddsIdless(s: State, entityGen: EntityList -> IdOracle, commentGen: Category -> IdOracle, i: nat)
    requires i < |s.customers| && s.customers[i].id == ""
    requires entityGen(CustomerList)(i) !in Ids(s.customers)
    ensures |Restored(s, Backup(s), entityGen, commentGen).customers| > |s.customers|
  {
    var d := WithIds(s.customers, entityGen(CustomerList))[i];
    assert d in WithIds(s.customers, entityGen(CustomerList));
    var r := ImportEntities(s.customers, s.customers, entityGen(CustomerList));
    assert d in r[|s.customers|..];
  }

  /** The reported count is the size of the backup, even when restoring it adds nothing. */
  lemma BackupCount(s: State)
    ensures RestoreCount(Backup(s)) == |s.customers| + |s.rpls| + |s.zyme| + |s.general| + |s.aprv|
  {
    var w := Backup(s);
    assert w.entitySheets["Customers"] == s.customers && w.entitySheets["RPL"] == s.rpls && w.entitySheets["Zyme_Data"] == s.zyme;
    assert w.commentSheets["General_Comments"] == s.general && w.commentSheets["APRV_Comments"] == s.aprv;
  }

  /** The Zyme upload keeps the rows with a name. */
  function ZymeRows(rows: seq<Entity>): (r: seq<Entity>)
    ensures forall e :: e in r <==> e in rows && e.name != ""
    ensures IsSubsequence(r, rows)
    ensures forall e :: multiset(r)[e] == if e.name != "" then multiset(rows)[e] else 0
  {
    var keep := (e: Entity) => e.name != "";
    FilterMultiplicity(rows, keep);
    Filter(rows, keep)
  }

  /** `handleAddZyme`: a new entry made of the generated id and the three given fields only. */
  function NewZymeEntry(newId: string, name: string, address: string, entryType: string): (e: Entity)
    ensures e.id == newId && e.name == name && e.address == address && e.entryType == entryType
    ensures e.website == "" && e.businessSummary == ""
  {
    Entity(newId, name, address, "", "", entryType)
  }

  class SettingsPage {
    const provider: Provider

    constructor (provider: Provider)
      ensures this.provider == provider
    {
      this.provider := provider;
    }

    /** `handleZymeUpload` after the workbook has been read: imports the rows with a name, if
        there are any, and reports how many there were. */
    method HandleZymeUpload(rows: seq<Entity>, gen: IdOracle) returns (imported: nat)
      requires provider.Valid()
      modifies provider
      ensures provider.Valid()
      ensures imported == |ZymeRows(rows)|
      ensures imported > 0 ==> provider.EntityCommitted(ZymeList, ImportEntities(old(provider.zymeData), ZymeRows(rows), gen))
      ensures imported == 0 ==> unchanged(provider)
    {
      var validData := ZymeRows(rows);
      imported := |validData|;
      if imported > 0 {
        provider.ImportEntityBatch(ZymeList, validData, gen);
      }
    }

    /** `handleAddZyme` with the generated id `newId`. */
    method HandleAddZyme(name: string, address: string, entryType: string, newId: string)
      requires provider.Valid()
      modifies provider
      ensures provider.Valid()
      ensures provider.EntityCommitted(ZymeList, Append(old(provider.zymeData), NewZymeEntry(newId, name, address, entryType)))
    {
      provider.AddEntity(ZymeList, NewZymeEntry(newId, name, address, entryType));
    }

    /** One entity sheet of `handleRestore`: imported when present; `n` is its row count. */
    method RestoreEntitySheet(w: Workbook, l: EntityList, gen: IdOracle) returns (n: nat)
      requires provider.Valid()
      modifies provider
      ensures provider.Valid()
      ensures n == SheetLength(w.entitySheets, EntitySheet(l))
      ensures provider.Snapshot() == old(provider.Snapshot()).WithEntities(l, RestoredEntities(old(provider.Snapshot()).Entities(l), w, l, gen))
      ensures provider.loading == old(provider.loading)
      ensures provider.entityLegacy == old(provider.entityLegacy) && provider.commentLegacy == old(provider.commentLegacy)
      ensures provider.loading || !provider.available ==>
        provider.entityStores == old(provider.entityStores) && provider.commentStores == old(provider.commentStores)
    {
      n := 0;
      if EntitySheet(l) in w.entitySheets {
        provider.ImportEntityBatch(l, w.entitySheets[EntitySheet(l)], gen);
        n := |w.entitySheets[EntitySheet(l)]|;
      } else {
        assert old(provider.Snapshot()).WithEntities(l, old(provider.Snapshot()).Entities(l)) == old(provider.Snapshot()) by {
          match l {
            case CustomerList =>
            case RplList =>
            case ZymeList =>
          }
        }
      }
    }

    /** One comment sheet of `handleRestore`. */
    method RestoreCommentSheet(w: Workbook, cat: Category, gen: IdOracle) returns (n: nat)
      requires provider.Valid()
      modifies provider
      ensures provider.Valid()
      ensures n == SheetLength(w.commentSheets, CommentSheet(cat))
      ensures provider.Snapshot() == old(provider.Snapshot()).WithComments(cat, RestoredComments(old(provider.Snapshot()).Comments(cat), w, cat, gen))
      ensures provider.loading == old(provider.loading)
      ensures provider.entityLegacy == old(provider.entityLegacy) && provider.commentLegacy == old(provider.commentLegacy)
      ensures provider.loading || !provider.available ==>
        provider.entityStores == old(provider.entityStores) && provider.commentStores == old(provider.commentStores)
    {
      n := 0;
      if CommentSheet(cat) in w.commentSheets {
        provider.ImportCommentBatch(cat, w.commentSheets[CommentSheet(cat)], gen);
        n := |w.commentSheets[CommentSheet(cat)]|;
      } else {
        assert old(provider.Snapshot()).WithComments(cat, old(provider.Snapshot()).Comments(cat)) == old(provider.Snapshot()) by {
          match cat {
            case General =>
            case Aprv =>
          }
        }
      }
    }

    /** `handleRestore` after the workbook has been read: the five sheets in turn, each present
        one imported and its row count added. */
    method HandleRestore(w: Workbook, entityGen: EntityList -> IdOracle, commentGen: Category -> IdOracle) returns (count: nat)
      requires provider.Valid()
      modifies provider
      ensures provider.Valid()
      ensures count == RestoreCount(w)
      ensures provider.Snapshot() == Restored(old(provider.Snapshot()), w, entityGen, commentGen)
      ensures provider.loading == old(provider.loading)
      ensures provider.entityLegacy == old(provider.entityLegacy) && provider.commentLegacy == old(provider.commentLegacy)
      ensures provider.loading || !provider.available ==>
        provider.entityStores == old(provider.entityStores) && provider.commentStores == old(provider.commentStores)
    {
      count := 0;
      var n := RestoreEntitySheet(w, CustomerList, entityGen(CustomerList));
      count := count + n;
      n := RestoreEntitySheet(w, RplList, entityGen(RplList));
      count := count + n;
      n := RestoreEntitySheet(w, ZymeList, entityGen(ZymeList));
      count := count + n;
      n := RestoreCommentSheet(w, General, commentGen(General));
      count := count + n;
      n := RestoreCommentSheet(w, Aprv, commentGen(Aprv));
      count := count + n;
    }

    /** `handleResetApp`, where `confirmed` is the answer to the confirmation dialog: empties
        the keyed store and the legacy entries; the collections in memory stay until the
        reload builds a new provider. */
    method HandleResetApp(confirmed: bool)
      modifies provider
      ensures confirmed ==> provider.entityStores == (if provider.available then map[] else old(provider.entityStores))
      ensures confirmed ==> provider.commentStores == (if provider.available then map[] else old(provider.commentStores))
      ensures confirmed ==> provider.entityLegacy == map[] && provider.commentLegacy == map[]
      ensures !confirmed ==> unchanged(provider)
      ensures provider.Snapshot() == old(provider.Snapshot())
    {
      if confirmed {
        provider.ClearStorage();
      }
    }
  }
}
