/** The pure updaters of the data context (context/DataContext.tsx): what each
    `setX(prev => ...)` computes from the previous collection. The stateful provider
    that applies them and persists the result is in module DataContext. */
module Collections {
  import opened Types
  import opened Seqs

  // ---------------------------------------------------------------------------
  // add / update / delete / deleteMany

  /** `[...prev, e]` */
  function Append<T>(s: seq<T>, e: T): (r: seq<T>)
    ensures |r| == |s| + 1 && r[..|s|] == s && r[|s|] == e
  {
    s + [e]
  }

  /** `prev.map(item => item.id === c.id ? c : item)` */
  function Update(s: seq<Entity>, c: Entity): (r: seq<Entity>)
  {
    if s == [] then [] else [if s[0].id == c.id then c else s[0]] + Update(s[1..], c)
  }

  /** Update replaces every entry carrying `c`'s id by `c` and keeps every other entry in its place. */
  lemma {:induction false} UpdateAt(s: seq<Entity>, c: Entity)
    ensures |Update(s, c)| == |s|
    ensures forall i :: 0 <= i < |s| ==> Update(s, c)[i] == (if s[i].id == c.id then c else s[i])
  {
    if s != [] {
      UpdateAt(s[1..], c);
    }
  }

  /** Updating with an id that is not present changes nothing. */
  lemma {:induction false} UpdateAbsentId(s: seq<Entity>, c: Entity)
    requires c.id !in Ids(s)
    ensures Update(s, c) == s
  {
    if s != [] {
      assert s[0] in s;
      assert forall e :: e in s[1..] ==> e in s;
      UpdateAbsentId(s[1..], c);
    }
  }

  /** Update keeps the set of ids: nothing is added or removed. */
  lemma {:induction false} UpdateKeepsIds(s: seq<Entity>, c: Entity)
    ensures Ids(Update(s, c)) == Ids(s)
  {
    if s != [] {
      UpdateKeepsIds(s[1..], c);
      assert Update(s, c) == [Update(s, c)[0]] + Update(s[1..], c);
      assert s == [s[0]] + s[1..];
      assert forall t: seq<Entity>, u: seq<Entity> :: Ids(t + u) == Ids(t) + Ids(u) by {
        forall t: seq<Entity>, u: seq<Entity> ensures Ids(t + u) == Ids(t) + Ids(u) {
          assert forall e :: e in t + u <==> e in t || e in u;
        }
      }
    }
  }

  /** `prev.filter(item => item.id !== id)`: exactly the entries with another id, in order. */
  function Delete(s: seq<Entity>, id: string): (r: seq<Entity>)
    ensures forall e :: e in r <==> e in s && e.id != id
    ensures id !in Ids(r)
    ensures IsSubsequence(r, s)
    ensures forall e :: multiset(r)[e] == if e.id != id then multiset(s)[e] else 0
  {
    var keep := (e: Entity) => e.id != id;
    FilterMultiplicity(s, keep);
    Filter(s, keep)
  }

  /** `prev.filter(item => !ids.includes(item.id))`: exactly the entries whose id is not listed, in order. */
  function DeleteMany(s: seq<Entity>, ids: seq<string>): (r: seq<Entity>)
    ensures forall e :: e in r <==> e in s && e.id !in ids
    ensures forall id :: id in ids ==> id !in Ids(r)
    ensures IsSubsequence(r, s)
    ensures forall e :: multiset(r)[e] == if e.id !in ids then multiset(s)[e] else 0
  {
    var keep := (e: Entity) => e.id !in ids;
    FilterMultiplicity(s, keep);
    Filter(s, keep)
  }

  /** Deleting one id is deleting the one-element list of it. */
  lemma {:induction false} DeleteIsDeleteManyOfOne(s: seq<Entity>, id: string)
    ensures Delete(s, id) == DeleteMany(s, [id])
  {
    FilterSameOn(s, (e: Entity) => e.id != id, (e: Entity) => e.id !in [id]);
  }

  /** Deleting ids that are not present changes nothing. */
  lemma DeleteManyAbsent(s: seq<Entity>, ids: seq<string>)
    requires forall id :: id in ids ==> id !in Ids(s)
    ensures DeleteMany(s, ids) == s
  {
    FilterKeepsAll(s, (e: Entity) => e.id !in ids);
  }

  /** The comment collections' `prev.filter(c => c.id !== id)`. */
  function DeleteComment(s: seq<CommentItem>, id: string): (r: seq<CommentItem>)
    ensures forall c :: c in r <==> c in s && c.id != id
    ensures IsSubsequence(r, s)
    ensures forall c :: multiset(r)[c] == if c.id != id then multiset(s)[c] else 0
  {
    var keep := (c: CommentItem) => c.id != id;
    FilterMultiplicity(s, keep);
    Filter(s, keep)
  }

  lemma {:induction false} FilterSameOn<T(!new)>(s: seq<T>, f: T -> bool, g: T -> bool)
    requires forall x :: x in s ==> f(x) == g(x)
    ensures Filter(s, f) == Filter(s, g)
  {
    if s != [] {
      assert s[0] in s;
      assert forall x :: x in s[1..] ==> x in s;
      FilterSameOn(s[1..], f, g);
    }
  }

  // ---------------------------------------------------------------------------
  // Entity bulk import (customers, RPL, Zyme): dedup on id

  /** `data.map(d => ({ ...d, id: d.id || gen() }))`: a record that carries an id keeps it,
      one without gets the generator's value for its position; nothing else changes. */
  function WithIds(data: seq<Entity>, gen: IdOracle): (r: seq<Entity>)
    ensures |r| == |data|
    ensures forall i :: 0 <= i < |data| ==> r[i].id == (if data[i].id != "" then data[i].id else gen(i))
    ensures forall i :: 0 <= i < |data| ==> r[i] == data[i].(id := r[i].id)
  {
    seq(|data|, i requires 0 <= i < |data| => if data[i].id != "" then data[i] else data[i].(id := gen(i)))
  }

  /** `bulkImportCustomers` / `bulkImportRPL` / `bulkImportZyme`: the old collection unchanged,
      followed, in incoming order, by the incoming records (id filled in) whose id is not
      already in the old collection. */
  function ImportEntities(existing: seq<Entity>, data: seq<Entity>, gen: IdOracle): (r: seq<Entity>)
    ensures |existing| <= |r| <= |existing| + |data|
    ensures r[..|existing|] == existing
    ensures forall e :: e in r[|existing|..] <==> e in WithIds(data, gen) && e.id !in Ids(existing)
    ensures IsSubsequence(r[|existing|..], WithIds(data, gen))
    ensures forall e :: multiset(r[|existing|..])[e] == if e.id !in Ids(existing) then multiset(WithIds(data, gen))[e] else 0
  {
    var existingIds := Ids(existing);
    var keep := (d: Entity) => d.id !in existingIds;
    FilterMultiplicity(WithIds(data, gen), keep);
    var added := Filter(WithIds(data, gen), keep);
    assert (existing + added)[|existing|..] == added;
    existing + added
  }

  /** Importing the same batch twice adds nothing the second time, provided every record of
      the batch carries an id (whatever the generator yields). */
  lemma {:induction false} ImportEntitiesIdempotent(existing: seq<Entity>, data: seq<Entity>, g1: IdOracle, g2: IdOracle)
    requires forall d :: d in data ==> d.id != ""
    ensures ImportEntities(ImportEntities(existing, data, g1), data, g2) == ImportEntities(existing, data, g1)
  {
    var once := ImportEntities(existing, data, g1);
    assert WithIds(data, g1) == data == WithIds(data, g2);
    forall d | d in data
      ensures d.id in Ids(once)
    {
      if d.id !in Ids(existing) {
        assert d in once[|existing|..];
        assert d in once;
      } else {
        var e :| e in existing && e.id == d.id;
        assert e in once[..|existing|];
        assert e in once;
      }
    }
    var onceIds := Ids(once);
    FilterKeepsNone(WithIds(data, g2), (d: Entity) => d.id !in onceIds);
  }

  /** A record without an id is given a new id on every import, so a second import of the
      same batch adds it again when the generator yields an unused id. */
  lemma {:induction false} ImportEntitiesReaddsIdless(existing: seq<Entity>, data: seq<Entity>, g1: IdOracle, g2: IdOracle, i: nat)
    requires i < |data| && data[i].id == ""
    requires g2(i) !in Ids(ImportEntities(existing, data, g1))
    ensures |ImportEntities(ImportEntities(existing, data, g1), data, g2)| > |ImportEntities(existing, data, g1)|
  {
    var once := ImportEntities(existing, data, g1);
    var twice := ImportEntities(once, data, g2);
    var d := WithIds(data, g2)[i];
    assert d in WithIds(data, g2) && d.id !in Ids(once);
    assert d in twice[|once|..];
  }

  /** The batch itself is not deduplicated: two copies of a new record are both appended. */
  lemma SameBatchRecordTwice(existing: seq<Entity>, d: Entity, gen: IdOracle)
    requires d.id != "" && d.id !in Ids(existing)
    ensures ImportEntities(existing, [d, d], gen) == existing + [d, d]
  {
    assert WithIds([d, d], gen) == [d, d];
  }

  /** Dedup is on id only: a batch row without an id that repeats an existing customer's
      name and address is given a new id and appended, next to a genuinely new row. */
  lemma AcmeBatch(gen: IdOracle)
    requires gen(0) != "" && gen(1) != "" && gen(0) != "a1" && gen(1) != "a1"
    ensures var a1 := Entity("a1", "Acme", "1 Main St", "", "", "");
      var acme := Entity("", "Acme", "1 Main St", "", "", "");
      var beta := Entity("", "Beta", "2 Oak Ave", "", "", "");
      ImportEntities([a1], [acme, beta], gen) == [a1, acme.(id := gen(0)), beta.(id := gen(1))]
  {
    var a1 := Entity("a1", "Acme", "1 Main St", "", "", "");
    var acme := Entity("", "Acme", "1 Main St", "", "", "");
    var beta := Entity("", "Beta", "2 Oak Ave", "", "", "");
    var filled := WithIds([acme, beta], gen);
    assert filled == [acme.(id := gen(0)), beta.(id := gen(1))];
    var existingIds := Ids([a1]);
    assert existingIds == {"a1"};
    var keep := (d: Entity) => d.id !in existingIds;
    assert Filter(filled, keep) == [filled[0]] + Filter(filled[1..], keep);
    assert Filter(filled[1..], keep) == [filled[1]] + Filter(filled[2..], keep);
    assert ImportEntities([a1], [acme, beta], gen) == [a1] + Filter(filled, keep);
  }

  // ---------------------------------------------------------------------------
  // Comment bulk import: dedup on text (General) or title (APRV)

  /** The field a comment collection deduplicates on. */
  function CommentKey(c: CommentItem, cat: Category): string
  {
    match cat
    case General => c.text
    case Aprv => c.title
  }

  function Keys(s: seq<CommentItem>, cat: Category): set<string>
  {
    set c | c in s :: CommentKey(c, cat)
  }

  /** `{ ...d, id: d.id || gen(), category }` */
  function Stamp(d: CommentItem, newId: string, cat: Category): (r: CommentItem)
    ensures r.category == cat && CommentKey(r, cat) == CommentKey(d, cat)
    ensures r.id == (if d.id != "" then d.id else newId)
    ensures r.text == d.text && r.title == d.title && r.additionalInfo == d.additionalInfo && r.remarks == d.remarks
  {
    d.(id := if d.id != "" then d.id else newId, category := cat)
  }

  /** The incoming comments that survive the filter: a non-empty key not already present. */
  function NewComments(existing: seq<CommentItem>, data: seq<CommentItem>, cat: Category): (r: seq<CommentItem>)
    ensures forall d :: d in r <==> d in data && CommentKey(d, cat) != "" && CommentKey(d, cat) !in Keys(existing, cat)
    ensures IsSubsequence(r, data)
    ensures forall d :: multiset(r)[d] == if CommentKey(d, cat) != "" && CommentKey(d, cat) !in Keys(existing, cat) then multiset(data)[d] else 0
  {
    var existingKeys := Keys(existing, cat);
    var keep := (d: CommentItem) => CommentKey(d, cat) != "" && CommentKey(d, cat) !in existingKeys;
    FilterMultiplicity(data, keep);
    Filter(data, keep)
  }

  /** `bulkImportGeneralComments` (cat = General) and `bulkImportAprvComments` (cat = Aprv):
      the old collection unchanged, followed by the surviving incoming comments in order,
      each stamped with the collection's category and an id (its own if it has one). */
  function ImportComments(existing: seq<CommentItem>, data: seq<CommentItem>, gen: IdOracle, cat: Category): (r: seq<CommentItem>)
    ensures |existing| <= |r| <= |existing| + |data|
    ensures r[..|existing|] == existing
    ensures forall i :: |existing| <= i < |r| ==>
      && r[i].category == cat
      && CommentKey(r[i], cat) != ""
      && CommentKey(r[i], cat) !in Keys(existing, cat)
    ensures var survivors := NewComments(existing, data, cat);
      && |r| == |existing| + |survivors|
      && forall i :: 0 <= i < |survivors| ==>
        && r[|existing| + i].id == (if survivors[i].id != "" then survivors[i].id else gen(i))
        && r[|existing| + i].category == cat
        && r[|existing| + i].text == survivors[i].text
        && r[|existing| + i].title == survivors[i].title
        && r[|existing| + i].additionalInfo == survivors[i].additionalInfo
        && r[|existing| + i].remarks == survivors[i].remarks
  {
    var survivors := NewComments(existing, data, cat);
    var stamped := StampAll(survivors, gen, cat);
    forall i | 0 <= i < |stamped|
      ensures CommentKey(stamped[i], cat) != "" && CommentKey(stamped[i], cat) !in Keys(existing, cat)
    {
      assert survivors[i] in survivors;
    }
    var r := existing + stamped;
    assert forall i :: |existing| <= i < |r| ==> r[i] == stamped[i - |existing|];
    r
  }

  /** `data.map(d => ({ ...d, id: d.id || gen(), category }))` over the survivors: each
      keeps its fields and dedup key, takes the category, and keeps its id or gets the
      generator's value for its position. */
  function StampAll(survivors: seq<CommentItem>, gen: IdOracle, cat: Category): (r: seq<CommentItem>)
    ensures |r| == |survivors|
    ensures forall i :: 0 <= i < |survivors| ==>
      && r[i].id == (if survivors[i].id != "" then survivors[i].id else gen(i))
      && r[i].category == cat
      && r[i].text == survivors[i].text
      && r[i].title == survivors[i].title
      && r[i].additionalInfo == survivors[i].additionalInfo
      && r[i].remarks == survivors[i].remarks
      && CommentKey(r[i], cat) == CommentKey(survivors[i], cat)
  {
    var r := seq(|survivors|, i requires 0 <= i < |survivors| => Stamp(survivors[i], gen(i), cat));
    assert forall i :: 0 <= i < |r| ==> r[i] == Stamp(survivors[i], gen(i), cat);
    r
  }

  /** Importing the same comment batch twice adds nothing the second time, unconditionally:
      every key of the batch is present after the first import. */
  lemma {:induction false} ImportCommentsIdempotent(existing: seq<CommentItem>, data: seq<CommentItem>, g1: IdOracle, g2: IdOracle, cat: Category)
    ensures ImportComments(ImportComments(existing, data, g1, cat), data, g2, cat) == ImportComments(existing, data, g1, cat)
  {
    var once := ImportComments(existing, data, g1, cat);
    var survivors := NewComments(existing, data, cat);
    forall d | d in data && CommentKey(d, cat) != ""
      ensures CommentKey(d, cat) in Keys(once, cat)
    {
      if CommentKey(d, cat) in Keys(existing, cat) {
        var e :| e in existing && CommentKey(e, cat) == CommentKey(d, cat);
        assert e in once[..|existing|];
        assert e in once;
      } else {
        assert d in survivors;
        var i :| 0 <= i < |survivors| && survivors[i] == d;
        assert CommentKey(once[|existing| + i], cat) == CommentKey(d, cat);
      }
    }
    var onceKeys := Keys(once, cat);
    FilterKeepsNone(data, (d: CommentItem) => CommentKey(d, cat) != "" && CommentKey(d, cat) !in onceKeys);
  }

  /** Text dedup catches a repeated General comment even though the row has no id. */
  lemma ReviewedOkBatch(gen: IdOracle)
    ensures var c1 := CommentItem("c1", General, "Reviewed OK", "", "", "");
      var again := CommentItem("", General, "Reviewed OK", "", "", "");
      var note := CommentItem("", General, "New note", "", "", "");
      ImportComments([c1], [again, note], gen, General) == [c1, note.(id := gen(0))]
  {
    var c1 := CommentItem("c1", General, "Reviewed OK", "", "", "");
    var again := CommentItem("", General, "Reviewed OK", "", "", "");
    var note := CommentItem("", General, "New note", "", "", "");
    assert CommentKey(c1, General) in Keys([c1], General);
    assert forall c :: c in [c1] ==> c == c1;
    assert "New note" !in Keys([c1], General);
    var existingKeys := Keys([c1], General);
    var keep := (d: CommentItem) => CommentKey(d, General) != "" && CommentKey(d, General) !in existingKeys;
    assert Filter([again, note], keep) == Filter([note], keep) == [note];
  }

  /** `addGeneralComment(text)`: a new General comment with only id and text. */
  function NewGeneralComment(id: string, text: string): (c: CommentItem)
    ensures c.category == General && c.text == text && c.id == id
  {
    CommentItem(id, General, text, "", "", "")
  }

  /** `addAprvComment(title, text, additionalInfo, remarks)`: a new APRV comment copying the four fields. */
  function NewAprvComment(id: string, title: string, text: string, additionalInfo: string, remarks: string): (c: CommentItem)
    ensures c.category == Aprv && c.id == id
    ensures c.title == title && c.text == text && c.additionalInfo == additionalInfo && c.remarks == remarks
  {
    CommentItem(id, Aprv, text, title, additionalInfo, remarks)
  }
}
