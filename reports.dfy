/** What the two read-only reports, `resumenGeneral` and `agendaPorFecha`,
    compute, stated as functions of the store, with their properties. */
module Reports {

  import opened Text
  import opened Tables
  import opened Model
  import opened Integrity

  /** One tiempo of the summary: the tiempo, its existing PNTs and the computed
      duration `duracion_total_calculada`. */
  datatype TiempoResumen = TiempoResumen(tiempo: Tiempo, pnts: seq<Pnt>, duracionTotalCalculada: int)

  /** One carpeta of the summary. */
  datatype CarpetaResumen = CarpetaResumen(carpeta: Carpeta, tiempos: seq<TiempoResumen>, duracionTotalCalculada: int)

  /** One carpeta of the agenda with its existing tiempos. */
  datatype AgendaEntry = AgendaEntry(carpeta: Carpeta, tiempos: seq<Tiempo>)

  /** The records `ids` refer to, in list order; ids without a record are
      skipped. */
  function Resolve<T>(ids: seq<string>, rows: map<string, T>): (r: seq<T>)
    ensures |r| <= |ids|
    ensures (forall id :: id in ids ==> id in rows) ==>
              |r| == |ids| && forall i :: 0 <= i < |ids| ==> r[i] == rows[ids[i]]
  {
    if ids == [] then []
    else
      var init, last := ids[..|ids| - 1], ids[|ids| - 1];
      assert forall id :: id in init ==> id in ids;
      Resolve(init, rows) + if last in rows then [rows[last]] else []
  }

  /** Resolving a concatenation resolves each part. */
  lemma {:induction false} ResolveAppend<T>(a: seq<string>, b: seq<string>, rows: map<string, T>)
    ensures Resolve(a + b, rows) == Resolve(a, rows) + Resolve(b, rows)
    decreases |b|
  {
    if b == [] {
      assert a + b == a;
    } else {
      var b', last := b[..|b| - 1], b[|b| - 1];
      var tail := if last in rows then [rows[last]] else [];
      assert (a + b)[..|a + b| - 1] == a + b' && (a + b)[|a + b| - 1] == last;
      assert Resolve(a + b, rows) == Resolve(a + b', rows) + tail;
      assert Resolve(b, rows) == Resolve(b', rows) + tail;
      ResolveAppend(a, b', rows);
    }
  }

  /** Sum of `duracion_segundos`. */
  function Segundos(ps: seq<Pnt>): int {
    if ps == [] then 0 else Segundos(ps[..|ps| - 1]) + ps[|ps| - 1].duracionSegundos
  }

  lemma {:induction false} SegundosAppend(a: seq<Pnt>, b: seq<Pnt>)
    ensures Segundos(a + b) == Segundos(a) + Segundos(b)
    decreases |b|
  {
    if b == [] {
      assert a + b == a;
    } else {
      var b' := b[..|b| - 1];
      assert (a + b)[..|a + b| - 1] == a + b';
      SegundosAppend(a, b');
    }
  }

  /** Sum of the tiempos' computed durations. */
  function Calculada(ts: seq<TiempoResumen>): int {
    if ts == [] then 0 else Calculada(ts[..|ts| - 1]) + ts[|ts| - 1].duracionTotalCalculada
  }

  /** A tiempo's entry: base duration plus the durations of the PNTs it lists
      that exist. */
  function TiempoReport(t: Tiempo, pnts: map<string, Pnt>): TiempoResumen {
    var ps := Resolve(t.pntIds, pnts);
    TiempoResumen(t, ps, t.duracionTotal + Segundos(ps))
  }

  /** The entries of the tiempos `ids` lists that exist, in list order. */
  function TiempoReports(ids: seq<string>, db: Db): (r: seq<TiempoResumen>)
    ensures |r| == |Resolve(ids, db.tiempos.rows)|
  {
    var ts := Resolve(ids, db.tiempos.rows);
    seq(|ts|, i requires 0 <= i < |ts| => TiempoReport(ts[i], db.pnts.rows))
  }

  /** Extending the list by one id extends the entries by that tiempo's entry,
      if the tiempo exists. */
  lemma {:induction false} TiempoReportsSnoc(ids: seq<string>, x: string, db: Db)
    ensures TiempoReports(ids + [x], db)
            == TiempoReports(ids, db) + if x in db.tiempos.rows then [TiempoReport(db.tiempos.rows[x], db.pnts.rows)] else []
  {
    assert (ids + [x])[..|ids|] == ids;
  }

  /** A carpeta's entry: its tiempos' entries and the sum of their durations. */
  function CarpetaReport(c: Carpeta, db: Db): CarpetaResumen {
    var ts := TiempoReports(c.tiempoIds, db);
    CarpetaResumen(c, ts, Calculada(ts))
  }

  /** `resumenGeneral`: one entry per carpeta, in stored order. */
  function Resumen(db: Db): (r: seq<CarpetaResumen>)
    ensures |r| == |db.carpetas.keys|
    ensures forall i :: 0 <= i < |r| ==> r[i] == CarpetaReport(db.carpetas.rows[db.carpetas.keys[i]], db)
  {
    var cs := Values(db.carpetas);
    seq(|cs|, i requires 0 <= i < |cs| => CarpetaReport(cs[i], db))
  }

  /** In a valid store nothing is skipped: every listed tiempo has an entry,
      every listed PNT is counted, in list order. */
  lemma {:induction false} ResumenComplete(db: Db, i: nat)
    requires Valid(db) && i < |db.carpetas.keys|
    ensures var c := db.carpetas.rows[db.carpetas.keys[i]];
            var e := Resumen(db)[i];
            && |e.tiempos| == |c.tiempoIds|
            && forall j :: 0 <= j < |c.tiempoIds| ==>
                 && e.tiempos[j].tiempo == db.tiempos.rows[c.tiempoIds[j]]
                 && e.tiempos[j].pnts == Resolve(e.tiempos[j].tiempo.pntIds, db.pnts.rows)
                 && |e.tiempos[j].pnts| == |e.tiempos[j].tiempo.pntIds|
  {
    var k := db.carpetas.keys[i];
    var c := db.carpetas.rows[k];
    assert CarpetaOk(k, c, db.tiempos.rows.Keys);
    var e := Resumen(db)[i];
    forall j | 0 <= j < |c.tiempoIds|
      ensures |e.tiempos[j].pnts| == |e.tiempos[j].tiempo.pntIds|
    {
      var tk := c.tiempoIds[j];
      assert TiempoOk(tk, db.tiempos.rows[tk], db.pnts.rows.Keys);
    }
  }

  /** Linking a PNT not yet listed adds exactly its duration to the tiempo's
      computed total. */
  lemma {:induction false} LinkPntAddsDuration(db: Db, tiempoId: string, pntId: string)
    requires tiempoId in db.tiempos.rows && pntId in db.pnts.rows
    requires pntId !in db.tiempos.rows[tiempoId].pntIds
    ensures var before := TiempoReport(db.tiempos.rows[tiempoId], db.pnts.rows);
            var after := LinkPnt(db, tiempoId, pntId);
            TiempoReport(after.tiempos.rows[tiempoId], after.pnts.rows).duracionTotalCalculada
              == before.duracionTotalCalculada + db.pnts.rows[pntId].duracionSegundos
  {
    var ids := db.tiempos.rows[tiempoId].pntIds;
    ResolveAppend(ids, [pntId], db.pnts.rows);
    assert Resolve([pntId], db.pnts.rows) == [db.pnts.rows[pntId]] by {
      assert [pntId][..0] == [];
    }
    SegundosAppend(Resolve(ids, db.pnts.rows), [db.pnts.rows[pntId]]);
    assert Segundos([db.pnts.rows[pntId]]) == db.pnts.rows[pntId].duracionSegundos by {
      assert [db.pnts.rows[pntId]][..0] == [];
    }
  }

  /** Unlinking a listed, existing PNT from a duplicate-free list takes exactly
      its duration off the tiempo's computed total. */
  lemma {:induction false} UnlinkPntRemovesDuration(db: Db, tiempoId: string, i: nat)
    requires tiempoId in db.tiempos.rows
    requires NoDup(db.tiempos.rows[tiempoId].pntIds) && i < |db.tiempos.rows[tiempoId].pntIds|
    requires db.tiempos.rows[tiempoId].pntIds[i] in db.pnts.rows
    ensures var ids := db.tiempos.rows[tiempoId].pntIds;
            var before := TiempoReport(db.tiempos.rows[tiempoId], db.pnts.rows);
            var after := UnlinkPnt(db, tiempoId, ids[i]);
            TiempoReport(after.tiempos.rows[tiempoId], after.pnts.rows).duracionTotalCalculada
              == before.duracionTotalCalculada - db.pnts.rows[ids[i]].duracionSegundos
  {
    var ids := db.tiempos.rows[tiempoId].pntIds;
    var rows := db.pnts.rows;
    var p := rows[ids[i]];
    UnlinkPntKeepsOrder(db, tiempoId, i);
    assert ids == ids[..i] + ([ids[i]] + ids[i + 1..]);
    ResolveAppend(ids[..i], [ids[i]] + ids[i + 1..], rows);
    ResolveAppend([ids[i]], ids[i + 1..], rows);
    ResolveAppend(ids[..i], ids[i + 1..], rows);
    assert Resolve([ids[i]], rows) == [p] by { assert [ids[i]][..0] == []; }
    var a, b := Resolve(ids[..i], rows), Resolve(ids[i + 1..], rows);
    SegundosAppend(a, [p] + b);
    SegundosAppend([p], b);
    SegundosAppend(a, b);
    assert Segundos([p]) == p.duracionSegundos by { assert [p][..0] == []; }
  }

  /** The worked example: a carpeta with one tiempo of base 30 holding one PNT
      of 20 seconds reports 50 for the tiempo and 50 for the carpeta. */
  lemma ResumenExample(pnt: Pnt, t: Tiempo, c: Carpeta)
    requires pnt.duracionSegundos == 20
    requires t.duracionTotal == 30 && t.pntIds == [pnt.identifier]
    requires c.tiempoIds == [t.identifier]
    ensures var db := Db(OrderedMap([pnt.identifier], map[pnt.identifier := pnt]),
                         OrderedMap([t.identifier], map[t.identifier := t]),
                         OrderedMap([c.identifier], map[c.identifier := c]));
            var r := Resumen(db);
            |r| == 1 && |r[0].tiempos| == 1
            && r[0].tiempos[0].duracionTotalCalculada == 50
            && r[0].duracionTotalCalculada == 50
  {
    var db := Db(OrderedMap([pnt.identifier], map[pnt.identifier := pnt]),
                 OrderedMap([t.identifier], map[t.identifier := t]),
                 OrderedMap([c.identifier], map[c.identifier := c]));
    ExampleTiempo(pnt, t);
    ExampleCarpeta(c, t, db);
    assert Resumen(db)[0] == CarpetaReport(c, db);
  }

  lemma ExampleTiempo(pnt: Pnt, t: Tiempo)
    requires pnt.duracionSegundos == 20
    requires t.duracionTotal == 30 && t.pntIds == [pnt.identifier]
    ensures var tr := TiempoReport(t, map[pnt.identifier := pnt]);
            tr.duracionTotalCalculada == 50 && tr.pnts == [pnt]
  {
    ResolveOne(pnt.identifier, map[pnt.identifier := pnt]);
    SumsOfOne(pnt);
  }

  lemma ExampleCarpeta(c: Carpeta, t: Tiempo, db: Db)
    requires c.tiempoIds == [t.identifier] && db.tiempos.rows == map[t.identifier := t]
    ensures var tr := TiempoReport(t, db.pnts.rows);
            CarpetaReport(c, db) == CarpetaResumen(c, [tr], tr.duracionTotalCalculada)
  {
    ResolveOne(t.identifier, db.tiempos.rows);
    CalculadaOne(TiempoReport(t, db.pnts.rows));
  }

  /** A single id resolves to its record, or to nothing when it dangles; with
      `ResolveAppend` this fixes `Resolve` on every list. */
  lemma ResolveOne<T>(id: string, rows: map<string, T>)
    ensures Resolve([id], rows) == if id in rows then [rows[id]] else []
  {
    assert [id][..0] == [];
  }

  lemma SumsOfOne(p: Pnt)
    ensures Segundos([p]) == p.duracionSegundos
  {
    assert [p][..0] == [];
  }

  lemma CalculadaOne(t: TiempoResumen)
    ensures Calculada([t]) == t.duracionTotalCalculada
  {
    assert [t][..0] == [];
  }


  // ---------------------------------------------------------------------------
  // Agenda

  /** The carpetas among `keys` dated `target`, in `keys` order, each with the
      tiempos it lists that exist. */
  function Matching(keys: seq<string>, db: Db, target: string): seq<AgendaEntry>
    requires forall k :: k in keys ==> k in db.carpetas.rows
  {
    if keys == [] then []
    else
      var init, k := keys[..|keys| - 1], keys[|keys| - 1];
      assert forall k' :: k' in init ==> k' in keys;
      var c := db.carpetas.rows[k];
      Matching(init, db, target)
        + if c.fechaEmision == target then [AgendaEntry(c, Resolve(c.tiempoIds, db.tiempos.rows))] else []
  }

  /** The broadcast dates of the carpetas `keys` names, in `keys` order. */
  ghost function Dates(keys: seq<string>, db: Db): (r: seq<string>)
    requires forall k :: k in keys ==> k in db.carpetas.rows
    ensures |r| == |keys|
    ensures forall i :: 0 <= i < |keys| ==> r[i] == db.carpetas.rows[keys[i]].fechaEmision
  {
    seq(|keys|, i requires 0 <= i < |keys| => db.carpetas.rows[keys[i]].fechaEmision)
  }

  /** The positions in `dates` that hold `target`, ascending; what they are is
      stated by the three lemmas that follow. */
  ghost function Positions(dates: seq<string>, target: string): (r: seq<nat>)
    ensures forall i :: 0 <= i < |r| ==> r[i] < |dates|
  {
    if dates == [] then []
    else
      var last := |dates| - 1;
      Positions(dates[..last], target) + if dates[last] == target then [last] else []
  }

  /** Every listed position holds `target`. */
  lemma {:induction false} PositionsSound(dates: seq<string>, target: string)
    ensures forall i :: 0 <= i < |Positions(dates, target)| ==> dates[Positions(dates, target)[i]] == target
  {
    if dates != [] {
      var last := |dates| - 1;
      var init := dates[..last];
      PositionsSound(init, target);
      var p := Positions(init, target);
      var r := Positions(dates, target);
      var tail: seq<nat> := if dates[last] == target then [last] else [];
      assert r == p + tail;
      forall i | 0 <= i < |r| ensures dates[r[i]] == target {
        if i < |p| {
          assert r[i] == p[i] && init[p[i]] == target;
          assert dates[p[i]] == init[p[i]];
        } else {
          assert tail != [] && r[i] == last;
        }
      }
    }
  }

  /** The positions are listed in ascending order, each once. */
  lemma {:induction false} PositionsIncreasing(dates: seq<string>, target: string)
    ensures forall i, j :: 0 <= i < j < |Positions(dates, target)| ==> Positions(dates, target)[i] < Positions(dates, target)[j]
  {
    if dates != [] {
      var last := |dates| - 1;
      var init := dates[..last];
      PositionsIncreasing(init, target);
      var p := Positions(init, target);
      var r := Positions(dates, target);
      var tail: seq<nat> := if dates[last] == target then [last] else [];
      assert r == p + tail;
      forall i, j | 0 <= i < j < |r| ensures r[i] < r[j] {
        if j < |p| {
          assert r[i] == p[i] && r[j] == p[j];
        } else {
          assert tail != [] && r[j] == last;
          assert i < |p| && r[i] == p[i] && p[i] < |init|;
        }
      }
    }
  }

  /** Every position that holds `target` is listed. */
  lemma {:induction false} PositionsComplete(dates: seq<string>, target: string)
    ensures forall n :: 0 <= n < |dates| && dates[n] == target ==> n in Positions(dates, target)
  {
    if dates != [] {
      var last := |dates| - 1;
      var init := dates[..last];
      PositionsComplete(init, target);
      var p := Positions(init, target);
      var r := Positions(dates, target);
      forall n | 0 <= n < |dates| && dates[n] == target ensures n in r {
        if n < last {
          assert init[n] == target;
          assert n in p;
        } else {
          assert r[|r| - 1] == n;
        }
      }
    }
  }

  /** `agendaPorFecha` once the date is parsed. */
  function Agenda(db: Db, target: string): seq<AgendaEntry> {
    Matching(db.carpetas.keys, db, target)
  }

  /** Every agenda entry is a stored carpeta dated `target`, with the tiempos it
      lists that exist. */
  lemma {:induction false} MatchingSound(keys: seq<string>, db: Db, target: string)
    requires forall k :: k in keys ==> k in db.carpetas.rows
    ensures forall e :: e in Matching(keys, db, target) ==>
              && e.carpeta.fechaEmision == target
              && (exists k :: k in keys && db.carpetas.rows[k] == e.carpeta)
              && e.tiempos == Resolve(e.carpeta.tiempoIds, db.tiempos.rows)
  {
    if keys != [] {
      var init := keys[..|keys| - 1];
      assert forall k' :: k' in init ==> k' in keys;
      MatchingSound(init, db, target);
    }
  }

  /** Every stored carpeta dated `target` has an agenda entry. */
  lemma {:induction false} MatchingComplete(keys: seq<string>, db: Db, target: string)
    requires forall k :: k in keys ==> k in db.carpetas.rows
    ensures forall k :: k in keys && db.carpetas.rows[k].fechaEmision == target ==>
              var c := db.carpetas.rows[k];
              AgendaEntry(c, Resolve(c.tiempoIds, db.tiempos.rows)) in Matching(keys, db, target)
  {
    if keys != [] {
      var init := keys[..|keys| - 1];
      assert forall k' :: k' in init ==> k' in keys;
      MatchingComplete(init, db, target);
      assert forall k :: k in keys ==> k in init || k == keys[|keys| - 1];
    }
  }

  /** Entry `i` of the matching carpetas is the carpeta at the `i`-th
      matching position of `keys`. */
  lemma {:induction false} MatchingAtPositions(keys: seq<string>, db: Db, target: string)
    requires forall k :: k in keys ==> k in db.carpetas.rows
    ensures var m, pos := Matching(keys, db, target), Positions(Dates(keys, db), target);
            && |m| == |pos|
            && forall i :: 0 <= i < |m| ==>
                 var c := db.carpetas.rows[keys[pos[i]]];
                 m[i] == AgendaEntry(c, Resolve(c.tiempoIds, db.tiempos.rows))
  {
    if keys != [] {
      var init := keys[..|keys| - 1];
      assert forall k' :: k' in init ==> k' in keys;
      MatchingAtPositions(init, db, target);
      var pos := Positions(Dates(init, db), target);
      assert Dates(keys, db)[..|keys| - 1] == Dates(init, db);
      assert forall i :: 0 <= i < |pos| ==> keys[pos[i]] == init[pos[i]];
    }
  }

  /** The agenda holds exactly the carpetas dated `target`. */
  lemma AgendaExact(db: Db, target: string)
    ensures forall e :: e in Agenda(db, target) ==>
              e.carpeta.fechaEmision == target && e.carpeta in db.carpetas.rows.Values
              && e.tiempos == Resolve(e.carpeta.tiempoIds, db.tiempos.rows)
    ensures forall k :: k in db.carpetas.rows && db.carpetas.rows[k].fechaEmision == target ==>
              var c := db.carpetas.rows[k];
              AgendaEntry(c, Resolve(c.tiempoIds, db.tiempos.rows)) in Agenda(db, target)
    ensures var a, keys := Agenda(db, target), db.carpetas.keys;
            var pos := Positions(Dates(keys, db), target);
            && |a| == |pos|
            && (forall i :: 0 <= i < |a| ==> a[i].carpeta == db.carpetas.rows[keys[pos[i]]])
            && (forall i, j :: 0 <= i < j < |a| ==> keys[pos[i]] != keys[pos[j]])
  {
    var keys := db.carpetas.keys;
    MatchingSound(keys, db, target);
    MatchingComplete(keys, db, target);
    MatchingAtPositions(keys, db, target);
    var pos := Positions(Dates(keys, db), target);
    PositionsIncreasing(Dates(keys, db), target);
    forall i, j | 0 <= i < j < |pos| ensures keys[pos[i]] != keys[pos[j]] {
      assert pos[i] < pos[j];
    }
  }
}
