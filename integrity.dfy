/** The effect of each mutating service call on the store, as functions of the
    store before it, and the proofs that each keeps `Model.Valid`. */
module Integrity {

  import opened Text
  import opened Tables
  import opened Model

  /** `$this->state['pnts'][$id] = $record` (create and update alike). */
  function StorePnt(db: Db, k: string, p: Pnt): (r: Db)
    ensures r.pnts.rows == db.pnts.rows[k := p]
    ensures k in db.pnts.rows ==> r.pnts.keys == db.pnts.keys
    ensures k !in db.pnts.rows ==> r.pnts.keys == db.pnts.keys + [k]
    ensures r.tiempos == db.tiempos && r.carpetas == db.carpetas
  {
    db.(pnts := Put(db.pnts, k, p))
  }

  function StoreTiempo(db: Db, k: string, t: Tiempo): (r: Db)
    ensures r.tiempos.rows == db.tiempos.rows[k := t]
    ensures k in db.tiempos.rows ==> r.tiempos.keys == db.tiempos.keys
    ensures k !in db.tiempos.rows ==> r.tiempos.keys == db.tiempos.keys + [k]
    ensures r.pnts == db.pnts && r.carpetas == db.carpetas
  {
    db.(tiempos := Put(db.tiempos, k, t))
  }

  function StoreCarpeta(db: Db, k: string, c: Carpeta): (r: Db)
    ensures r.carpetas.rows == db.carpetas.rows[k := c]
    ensures k in db.carpetas.rows ==> r.carpetas.keys == db.carpetas.keys
    ensures k !in db.carpetas.rows ==> r.carpetas.keys == db.carpetas.keys + [k]
    ensures r.pnts == db.pnts && r.tiempos == db.tiempos
  {
    db.(carpetas := Put(db.carpetas, k, c))
  }

  /** Storing a well-formed PNT keeps the store valid: keys only grow. */
  lemma {:induction false} StorePntValid(db: Db, k: string, p: Pnt)
    requires Valid(db) && PntOk(k, p)
    ensures Valid(StorePnt(db, k, p))
  {
    var r := StorePnt(db, k, p);
    assert db.pnts.rows.Keys <= r.pnts.rows.Keys;
    forall k | k in r.tiempos.rows ensures TiempoOk(k, r.tiempos.rows[k], r.pnts.rows.Keys) {
      assert TiempoOk(k, db.tiempos.rows[k], db.pnts.rows.Keys);
    }
  }

  /** Storing a tiempo whose references are deduplicated and present keeps the
      store valid. */
  lemma {:induction false} StoreTiempoValid(db: Db, k: string, t: Tiempo)
    requires Valid(db) && TiempoOk(k, t, db.pnts.rows.Keys)
    ensures Valid(StoreTiempo(db, k, t))
  {
    var r := StoreTiempo(db, k, t);
    assert db.tiempos.rows.Keys <= r.tiempos.rows.Keys;
    forall k | k in r.carpetas.rows ensures CarpetaOk(k, r.carpetas.rows[k], r.tiempos.rows.Keys) {
      assert CarpetaOk(k, db.carpetas.rows[k], db.tiempos.rows.Keys);
    }
  }

  lemma {:induction false} StoreCarpetaValid(db: Db, k: string, c: Carpeta)
    requires Valid(db) && CarpetaOk(k, c, db.tiempos.rows.Keys)
    ensures Valid(StoreCarpeta(db, k, c))
  {
  }

  // ---------------------------------------------------------------------------
  // Link and unlink

  /** `addPntToTiempo` once both ends exist. */
  function LinkPnt(db: Db, tiempoId: string, pntId: string): (r: Db)
    requires tiempoId in db.tiempos.rows
    ensures r.pnts == db.pnts && r.carpetas == db.carpetas && r.tiempos.keys == db.tiempos.keys
    ensures r.tiempos.rows.Keys == db.tiempos.rows.Keys
    ensures forall k :: k in db.tiempos.rows && k != tiempoId ==> r.tiempos.rows[k] == db.tiempos.rows[k]
    ensures var before, after := db.tiempos.rows[tiempoId], r.tiempos.rows[tiempoId];
            && after == before.(pntIds := after.pntIds)
            && (pntId in before.pntIds ==> r == db)
            && (pntId !in before.pntIds ==> after.pntIds == before.pntIds + [pntId])
  {
    var t := db.tiempos.rows[tiempoId];
    db.(tiempos := Put(db.tiempos, tiempoId, t.(pntIds := AddOnce(t.pntIds, pntId))))
  }

  /** `removePntFromTiempo` once the tiempo exists. */
  function UnlinkPnt(db: Db, tiempoId: string, pntId: string): (r: Db)
    requires tiempoId in db.tiempos.rows
    ensures r.pnts == db.pnts && r.carpetas == db.carpetas && r.tiempos.keys == db.tiempos.keys
    ensures r.tiempos.rows.Keys == db.tiempos.rows.Keys
    ensures forall k :: k in db.tiempos.rows && k != tiempoId ==> r.tiempos.rows[k] == db.tiempos.rows[k]
    ensures var before, after := db.tiempos.rows[tiempoId], r.tiempos.rows[tiempoId];
            && after == before.(pntIds := after.pntIds)
            && after.pntIds == Without(before.pntIds, pntId)
  {
    var t := db.tiempos.rows[tiempoId];
    db.(tiempos := Put(db.tiempos, tiempoId, t.(pntIds := Without(t.pntIds, pntId))))
  }

  /** `addTiempoToCarpeta` once both ends exist. */
  function LinkTiempo(db: Db, carpetaId: string, tiempoId: string): (r: Db)
    requires carpetaId in db.carpetas.rows
    ensures r.pnts == db.pnts && r.tiempos == db.tiempos && r.carpetas.keys == db.carpetas.keys
    ensures r.carpetas.rows.Keys == db.carpetas.rows.Keys
    ensures forall k :: k in db.carpetas.rows && k != carpetaId ==> r.carpetas.rows[k] == db.carpetas.rows[k]
    ensures var before, after := db.carpetas.rows[carpetaId], r.carpetas.rows[carpetaId];
            && after == before.(tiempoIds := after.tiempoIds)
            && (tiempoId in before.tiempoIds ==> r == db)
            && (tiempoId !in before.tiempoIds ==> after.tiempoIds == before.tiempoIds + [tiempoId])
  {
    var c := db.carpetas.rows[carpetaId];
    db.(carpetas := Put(db.carpetas, carpetaId, c.(tiempoIds := AddOnce(c.tiempoIds, tiempoId))))
  }

  /** `removeTiempoFromCarpeta` once the carpeta exists. */
  function UnlinkTiempo(db: Db, carpetaId: string, tiempoId: string): (r: Db)
    requires carpetaId in db.carpetas.rows
    ensures r.pnts == db.pnts && r.tiempos == db.tiempos && r.carpetas.keys == db.carpetas.keys
    ensures r.carpetas.rows.Keys == db.carpetas.rows.Keys
    ensures forall k :: k in db.carpetas.rows && k != carpetaId ==> r.carpetas.rows[k] == db.carpetas.rows[k]
    ensures var before, after := db.carpetas.rows[carpetaId], r.carpetas.rows[carpetaId];
            && after == before.(tiempoIds := after.tiempoIds)
            && after.tiempoIds == Without(before.tiempoIds, tiempoId)
  {
    var c := db.carpetas.rows[carpetaId];
    db.(carpetas := Put(db.carpetas, carpetaId, c.(tiempoIds := Without(c.tiempoIds, tiempoId))))
  }

  /** Linking an existing PNT keeps the store valid, so the id is listed
      exactly once. */
  lemma {:induction false} LinkPntValid(db: Db, tiempoId: string, pntId: string)
    requires Valid(db) && tiempoId in db.tiempos.rows && pntId in db.pnts.rows
    ensures Valid(LinkPnt(db, tiempoId, pntId))
  {
    var t := db.tiempos.rows[tiempoId];
    assert TiempoOk(tiempoId, t, db.pnts.rows.Keys);
    StoreTiempoValid(db, tiempoId, t.(pntIds := AddOnce(t.pntIds, pntId)));
  }

  lemma {:induction false} LinkTiempoValid(db: Db, carpetaId: string, tiempoId: string)
    requires Valid(db) && carpetaId in db.carpetas.rows && tiempoId in db.tiempos.rows
    ensures Valid(LinkTiempo(db, carpetaId, tiempoId))
  {
    var c := db.carpetas.rows[carpetaId];
    assert CarpetaOk(carpetaId, c, db.tiempos.rows.Keys);
    StoreCarpetaValid(db, carpetaId, c.(tiempoIds := AddOnce(c.tiempoIds, tiempoId)));
  }

  lemma {:induction false} UnlinkPntValid(db: Db, tiempoId: string, pntId: string)
    requires Valid(db) && tiempoId in db.tiempos.rows
    ensures Valid(UnlinkPnt(db, tiempoId, pntId))
  {
    var t := db.tiempos.rows[tiempoId];
    assert TiempoOk(tiempoId, t, db.pnts.rows.Keys);
    StoreTiempoValid(db, tiempoId, t.(pntIds := Without(t.pntIds, pntId)));
  }

  lemma {:induction false} UnlinkTiempoValid(db: Db, carpetaId: string, tiempoId: string)
    requires Valid(db) && carpetaId in db.carpetas.rows
    ensures Valid(UnlinkTiempo(db, carpetaId, tiempoId))
  {
    var c := db.carpetas.rows[carpetaId];
    assert CarpetaOk(carpetaId, c, db.tiempos.rows.Keys);
    StoreCarpetaValid(db, carpetaId, c.(tiempoIds := Without(c.tiempoIds, tiempoId)));
  }

  /** Linking twice is linking once. */
  lemma {:induction false} LinkPntIdempotent(db: Db, tiempoId: string, pntId: string)
    requires tiempoId in db.tiempos.rows
    ensures LinkPnt(LinkPnt(db, tiempoId, pntId), tiempoId, pntId) == LinkPnt(db, tiempoId, pntId)
  {
    var once := LinkPnt(db, tiempoId, pntId);
    PutSame(once.tiempos, tiempoId);
  }

  lemma {:induction false} LinkTiempoIdempotent(db: Db, carpetaId: string, tiempoId: string)
    requires carpetaId in db.carpetas.rows
    ensures LinkTiempo(LinkTiempo(db, carpetaId, tiempoId), carpetaId, tiempoId) == LinkTiempo(db, carpetaId, tiempoId)
  {
    var once := LinkTiempo(db, carpetaId, tiempoId);
    PutSame(once.carpetas, carpetaId);
  }

  /** Unlinking an id that is not listed changes nothing. */
  lemma {:induction false} UnlinkPntAbsentNoop(db: Db, tiempoId: string, pntId: string)
    requires tiempoId in db.tiempos.rows && pntId !in db.tiempos.rows[tiempoId].pntIds
    ensures UnlinkPnt(db, tiempoId, pntId) == db
  {
    PutSame(db.tiempos, tiempoId);
  }

  lemma {:induction false} UnlinkTiempoAbsentNoop(db: Db, carpetaId: string, tiempoId: string)
    requires carpetaId in db.carpetas.rows && tiempoId !in db.carpetas.rows[carpetaId].tiempoIds
    ensures UnlinkTiempo(db, carpetaId, tiempoId) == db
  {
    PutSame(db.carpetas, carpetaId);
  }

  /** Unlinking the id at position `i` of a duplicate-free list keeps the other
      ids in their order. */
  lemma {:induction false} UnlinkPntKeepsOrder(db: Db, tiempoId: string, i: nat)
    requires tiempoId in db.tiempos.rows
    requires NoDup(db.tiempos.rows[tiempoId].pntIds) && i < |db.tiempos.rows[tiempoId].pntIds|
    ensures var ids := db.tiempos.rows[tiempoId].pntIds;
            UnlinkPnt(db, tiempoId, ids[i]).tiempos.rows[tiempoId].pntIds == ids[..i] + ids[i + 1..]
  {
    WithoutRemovesOne(db.tiempos.rows[tiempoId].pntIds, i);
  }

  lemma {:induction false} UnlinkTiempoKeepsOrder(db: Db, carpetaId: string, i: nat)
    requires carpetaId in db.carpetas.rows
    requires NoDup(db.carpetas.rows[carpetaId].tiempoIds) && i < |db.carpetas.rows[carpetaId].tiempoIds|
    ensures var ids := db.carpetas.rows[carpetaId].tiempoIds;
            UnlinkTiempo(db, carpetaId, ids[i]).carpetas.rows[carpetaId].tiempoIds == ids[..i] + ids[i + 1..]
  {
    WithoutRemovesOne(db.carpetas.rows[carpetaId].tiempoIds, i);
  }

  /** Unlinking undoes linking an id that was not yet listed. */
  lemma {:induction false} UnlinkUndoesLinkPnt(db: Db, tiempoId: string, pntId: string)
    requires tiempoId in db.tiempos.rows && pntId !in db.tiempos.rows[tiempoId].pntIds
    ensures UnlinkPnt(LinkPnt(db, tiempoId, pntId), tiempoId, pntId) == db
  {
    var x := db.tiempos.rows[tiempoId];
    var linked := x.(pntIds := x.pntIds + [pntId]);
    assert LinkPnt(db, tiempoId, pntId) == db.(tiempos := Put(db.tiempos, tiempoId, linked));
    WithoutLast(x.pntIds, pntId);
    assert linked.(pntIds := Without(linked.pntIds, pntId)) == x;
    PutTwice(db.tiempos, tiempoId, linked, x);
    PutSame(db.tiempos, tiempoId);
  }


  lemma {:induction false} UnlinkUndoesLinkTiempo(db: Db, carpetaId: string, tiempoId: string)
    requires carpetaId in db.carpetas.rows && tiempoId !in db.carpetas.rows[carpetaId].tiempoIds
    ensures UnlinkTiempo(LinkTiempo(db, carpetaId, tiempoId), carpetaId, tiempoId) == db
  {
    var x := db.carpetas.rows[carpetaId];
    var linked := x.(tiempoIds := x.tiempoIds + [tiempoId]);
    assert LinkTiempo(db, carpetaId, tiempoId) == db.(carpetas := Put(db.carpetas, carpetaId, linked));
    WithoutLast(x.tiempoIds, tiempoId);
    assert linked.(tiempoIds := Without(linked.tiempoIds, tiempoId)) == x;
    PutTwice(db.carpetas, carpetaId, linked, x);
    PutSame(db.carpetas, carpetaId);
  }


  // ---------------------------------------------------------------------------
  // Cascading deletes

  /** The `foreach ($this->state['tiempos'] as &$tiempo)` pass of `deletePnt`:
      every tiempo loses `id` from its `pnt_ids`, nothing else changes. */
  function StripPnt(tiempos: Table<Tiempo>, id: string): (r: Table<Tiempo>)
    ensures r.keys == tiempos.keys && r.rows.Keys == tiempos.rows.Keys
    ensures forall k :: k in r.rows ==> id !in r.rows[k].pntIds
    ensures forall k :: k in r.rows ==> r.rows[k] == tiempos.rows[k].(pntIds := Without(tiempos.rows[k].pntIds, id))
  {
    OrderedMap(tiempos.keys, map k | k in tiempos.rows :: StrippedTiempo(tiempos.rows[k], id))
  }

  function StrippedTiempo(t: Tiempo, id: string): Tiempo {
    t.(pntIds := Without(t.pntIds, id))
  }

  /** The matching pass of `deleteTiempo` over the carpetas. */
  function StripTiempo(carpetas: Table<Carpeta>, id: string): (r: Table<Carpeta>)
    ensures r.keys == carpetas.keys && r.rows.Keys == carpetas.rows.Keys
    ensures forall k :: k in r.rows ==> id !in r.rows[k].tiempoIds
    ensures forall k :: k in r.rows ==> r.rows[k] == carpetas.rows[k].(tiempoIds := Without(carpetas.rows[k].tiempoIds, id))
  {
    OrderedMap(carpetas.keys, map k | k in carpetas.rows :: StrippedCarpeta(carpetas.rows[k], id))
  }

  function StrippedCarpeta(c: Carpeta, id: string): Carpeta {
    c.(tiempoIds := Without(c.tiempoIds, id))
  }

  /** The tiempos after the cascade of `deletePnt` has visited the first `n`
      keys. */
  function StripPntUpTo(tiempos: Table<Tiempo>, id: string, n: nat): (r: Table<Tiempo>)
    requires n <= |tiempos.keys|
    ensures r.keys == tiempos.keys && r.rows.Keys == tiempos.rows.Keys
  {
    var done := tiempos.keys[..n];
    OrderedMap(tiempos.keys, map k | k in tiempos.rows ::
                               if k in done then StrippedTiempo(tiempos.rows[k], id) else tiempos.rows[k])
  }

  /** One step of the cascade: the next tiempo is still as stored, and
      stripping it extends the visited prefix by one. */
  lemma {:induction false} StripPntStep(tiempos: Table<Tiempo>, id: string, n: nat)
    requires n < |tiempos.keys|
    ensures var cur := StripPntUpTo(tiempos, id, n);
            var k := tiempos.keys[n];
            && cur.rows[k] == tiempos.rows[k]
            && Put(cur, k, StrippedTiempo(cur.rows[k], id)) == StripPntUpTo(tiempos, id, n + 1)
  {
    var keys := tiempos.keys;
    assert keys[..n + 1] == keys[..n] + [keys[n]];
    assert keys[n] !in keys[..n] by {
      forall j | 0 <= j < n ensures keys[..n][j] != keys[n] { }
    }
  }

  /** The cascade before any step and after the last one. */
  lemma {:induction false} StripPntEnds(tiempos: Table<Tiempo>, id: string)
    ensures StripPntUpTo(tiempos, id, 0) == tiempos
    ensures StripPntUpTo(tiempos, id, |tiempos.keys|) == StripPnt(tiempos, id)
  {
    assert tiempos.keys[..|tiempos.keys|] == tiempos.keys;
    assert StripPntUpTo(tiempos, id, 0).rows == tiempos.rows;
  }

  /** The carpetas after the cascade of `deleteTiempo` has visited the first
      `n` keys. */
  function StripTiempoUpTo(carpetas: Table<Carpeta>, id: string, n: nat): (r: Table<Carpeta>)
    requires n <= |carpetas.keys|
    ensures r.keys == carpetas.keys && r.rows.Keys == carpetas.rows.Keys
  {
    var done := carpetas.keys[..n];
    OrderedMap(carpetas.keys, map k | k in carpetas.rows ::
                                if k in done then StrippedCarpeta(carpetas.rows[k], id) else carpetas.rows[k])
  }

  lemma {:induction false} StripTiempoStep(carpetas: Table<Carpeta>, id: string, n: nat)
    requires n < |carpetas.keys|
    ensures var cur := StripTiempoUpTo(carpetas, id, n);
            var k := carpetas.keys[n];
            && cur.rows[k] == carpetas.rows[k]
            && Put(cur, k, StrippedCarpeta(cur.rows[k], id)) == StripTiempoUpTo(carpetas, id, n + 1)
  {
    var keys := carpetas.keys;
    assert keys[..n + 1] == keys[..n] + [keys[n]];
    assert keys[n] !in keys[..n] by {
      forall j | 0 <= j < n ensures keys[..n][j] != keys[n] { }
    }
  }

  lemma {:induction false} StripTiempoEnds(carpetas: Table<Carpeta>, id: string)
    ensures StripTiempoUpTo(carpetas, id, 0) == carpetas
    ensures StripTiempoUpTo(carpetas, id, |carpetas.keys|) == StripTiempo(carpetas, id)
  {
    assert carpetas.keys[..|carpetas.keys|] == carpetas.keys;
    assert StripTiempoUpTo(carpetas, id, 0).rows == carpetas.rows;
  }

  /** `deletePnt` once the PNT exists. */
  function DropPnt(db: Db, id: string): (r: Db)
    ensures r.pnts.rows == db.pnts.rows - {id} && r.pnts.keys == Without(db.pnts.keys, id)
    ensures r.tiempos == StripPnt(db.tiempos, id)
    ensures r.carpetas == db.carpetas
  {
    db.(pnts := Remove(db.pnts, id), tiempos := StripPnt(db.tiempos, id))
  }

  /** `deleteTiempo` once the tiempo exists. */
  function DropTiempo(db: Db, id: string): (r: Db)
    ensures r.tiempos.rows == db.tiempos.rows - {id} && r.tiempos.keys == Without(db.tiempos.keys, id)
    ensures r.carpetas == StripTiempo(db.carpetas, id)
    ensures r.pnts == db.pnts
  {
    db.(tiempos := Remove(db.tiempos, id), carpetas := StripTiempo(db.carpetas, id))
  }

  /** `deleteCarpeta` once the carpeta exists: nothing references a carpeta. */
  function DropCarpeta(db: Db, id: string): (r: Db)
    ensures r.carpetas.rows == db.carpetas.rows - {id} && r.carpetas.keys == Without(db.carpetas.keys, id)
    ensures r.pnts == db.pnts && r.tiempos == db.tiempos
  {
    db.(carpetas := Remove(db.carpetas, id))
  }

  /** The cascade leaves no tiempo pointing at the deleted PNT, so the store
      stays valid. */
  lemma {:induction false} DropPntValid(db: Db, id: string)
    requires Valid(db)
    ensures Valid(DropPnt(db, id))
  {
    var r := DropPnt(db, id);
    forall k | k in r.tiempos.rows ensures TiempoOk(k, r.tiempos.rows[k], r.pnts.rows.Keys) {
      var t := db.tiempos.rows[k];
      assert TiempoOk(k, t, db.pnts.rows.Keys);
      assert r.tiempos.rows[k] == StrippedTiempo(t, id);
    }
  }

  lemma {:induction false} DropTiempoValid(db: Db, id: string)
    requires Valid(db)
    ensures Valid(DropTiempo(db, id))
  {
    var r := DropTiempo(db, id);
    forall k | k in r.carpetas.rows ensures CarpetaOk(k, r.carpetas.rows[k], r.tiempos.rows.Keys) {
      var c := db.carpetas.rows[k];
      assert CarpetaOk(k, c, db.tiempos.rows.Keys);
      assert r.carpetas.rows[k] == StrippedCarpeta(c, id);
    }
  }

  lemma {:induction false} DropCarpetaValid(db: Db, id: string)
    requires Valid(db)
    ensures Valid(DropCarpeta(db, id))
  {
  }

  /** The cascade keeps the other ids of every tiempo in their order. */
  lemma {:induction false} DropPntKeepsOrder(db: Db, id: string, k: string, i: nat)
    requires k in db.tiempos.rows
    requires NoDup(db.tiempos.rows[k].pntIds) && i < |db.tiempos.rows[k].pntIds|
    requires db.tiempos.rows[k].pntIds[i] == id
    ensures var ids := db.tiempos.rows[k].pntIds;
            DropPnt(db, id).tiempos.rows[k].pntIds == ids[..i] + ids[i + 1..]
  {
    WithoutRemovesOne(db.tiempos.rows[k].pntIds, i);
  }

  lemma {:induction false} DropTiempoKeepsOrder(db: Db, id: string, k: string, i: nat)
    requires k in db.carpetas.rows
    requires NoDup(db.carpetas.rows[k].tiempoIds) && i < |db.carpetas.rows[k].tiempoIds|
    requires db.carpetas.rows[k].tiempoIds[i] == id
    ensures var ids := db.carpetas.rows[k].tiempoIds;
            DropTiempo(db, id).carpetas.rows[k].tiempoIds == ids[..i] + ids[i + 1..]
  {
    WithoutRemovesOne(db.carpetas.rows[k].tiempoIds, i);
  }
}
