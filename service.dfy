/** `CmsService`: the domain service. It owns the whole store as one mutable
    value, `state`, and every mutating call validates first and writes
    `state` (then persists) only when every check passed. */
module Service {

  import opened Wrappers
  import opened Text
  import opened Tables
  import opened Model
  import opened Integrity
  import opened Outcomes
  import opened Reports

  class CmsService {
    /** `$this->state`: the three tables. */
    var state: Db
    /** How many times `persist()` wrote the store back. */
    ghost var saves: nat
    /** `DateTimeImmutable::createFromFormat('Y-m-d', ..)` followed by
        `->format('Y-m-d')`: the normalised date, or `None` when PHP rejects
        the text. */
    const dates: string -> Option<string>

    /** The service over a freshly loaded store. */
    constructor (loaded: Db, dates: string -> Option<string>)
      ensures state == loaded && saves == 0 && this.dates == dates
    {
      state := loaded;
      saves := 0;
      this.dates := dates;
    }

    /** `persist()`: writing the file is not modelled, only that it happens. */
    method Persist()
      modifies this
      ensures state == old(state) && saves == old(saves) + 1
    {
      saves := saves + 1;
    }

    // -------------------------------------------------------------------------
    // Reads

    function ListPnts(): (r: seq<Pnt>)
      reads this
      ensures |r| == |state.pnts.keys|
      ensures forall i :: 0 <= i < |r| ==> r[i] == state.pnts.rows[state.pnts.keys[i]]
    {
      Values(state.pnts)
    }

    function GetPnt(id: string): (r: Option<Pnt>)
      reads this
      ensures r.Some? <==> id in state.pnts.rows
      ensures r.Some? ==> r.value == state.pnts.rows[id]
    {
      Get(state.pnts, id)
    }

    function ListTiempos(): (r: seq<Tiempo>)
      reads this
      ensures |r| == |state.tiempos.keys|
      ensures forall i :: 0 <= i < |r| ==> r[i] == state.tiempos.rows[state.tiempos.keys[i]]
    {
      Values(state.tiempos)
    }

    function GetTiempo(id: string): (r: Option<Tiempo>)
      reads this
      ensures r.Some? <==> id in state.tiempos.rows
      ensures r.Some? ==> r.value == state.tiempos.rows[id]
    {
      Get(state.tiempos, id)
    }

    function ListCarpetas(): (r: seq<Carpeta>)
      reads this
      ensures |r| == |state.carpetas.keys|
      ensures forall i :: 0 <= i < |r| ==> r[i] == state.carpetas.rows[state.carpetas.keys[i]]
    {
      Values(state.carpetas)
    }

    function GetCarpeta(id: string): (r: Option<Carpeta>)
      reads this
      ensures r.Some? <==> id in state.carpetas.rows
      ensures r.Some? ==> r.value == state.carpetas.rows[id]
    {
      Get(state.carpetas, id)
    }

    // -------------------------------------------------------------------------
    // PNTs

    /** `createPnt`; `generated` is the value `uniqid('pnt_', true)` would
        produce. */
    method CreatePnt(p: PntPayload, generated: string) returns (r: Result<Pnt, Error>)
      modifies this
      ensures r == PntCreation(old(state), p, generated)
      ensures r.Failure? ==> state == old(state) && saves == old(saves)
      ensures r.Success? ==> state == StorePnt(old(state), r.value.identifier, r.value) && saves == old(saves) + 1
      ensures Valid(old(state)) ==> Valid(state)
    {
      var db := state;
      r := PntCreation(db, p, generated);
      if r.Success? {
        PntCreationValid(db, p, generated);
        state := StorePnt(db, r.value.identifier, r.value);
        Persist();
      }
    }

    /** `updatePnt`: supplied fields over the stored record. */
    method UpdatePnt(id: string, p: PntPayload) returns (r: Result<Pnt, Error>)
      modifies this
      ensures r == PntUpdate(old(state), id, p)
      ensures r.Failure? ==> state == old(state) && saves == old(saves)
      ensures r.Success? ==> state == StorePnt(old(state), id, r.value) && saves == old(saves) + 1
      ensures r.Success? && Valid(old(state)) ==> PntFieldsKept(old(state.pnts.rows[id]), r.value, p)
      ensures Valid(old(state)) ==> Valid(state)
    {
      r := PntUpdate(state, id, p);
      if r.Success? {
        PntUpdateValid(state, id, p);
        state := StorePnt(state, id, r.value);
        Persist();
      }
    }

    /** `deletePnt`: removes the PNT and, tiempo by tiempo, every reference to
        it. */
    method DeletePnt(id: string) returns (r: Result<(), Error>)
      modifies this
      ensures id !in old(state.pnts.rows) ==>
                r == Failure(NotFound(PntKind)) && state == old(state) && saves == old(saves)
      ensures id in old(state.pnts.rows) ==>
                r == Success(()) && state == DropPnt(old(state), id) && saves == old(saves) + 1
      ensures Valid(old(state)) ==> Valid(state)
    {
      if id !in state.pnts.rows {
        return Failure(NotFound(PntKind));
      }
      ghost var before := state;
      state := state.(pnts := Remove(state.pnts, id));
      var keys := state.tiempos.keys;
      StripPntEnds(before.tiempos, id);
      var i := 0;
      while i < |keys|
        invariant 0 <= i <= |keys| && keys == before.tiempos.keys
        invariant state == before.(pnts := Remove(before.pnts, id), tiempos := StripPntUpTo(before.tiempos, id, i))
        invariant saves == old(saves)
      {
        var k := keys[i];
        StripPntStep(before.tiempos, id, i);
        var t := state.tiempos.rows[k];
        state := state.(tiempos := Put(state.tiempos, k, t.(pntIds := Without(t.pntIds, id))));
        i := i + 1;
      }
      if Valid(before) {
        DropPntValid(before, id);
      }
      assert saves == old(saves);
      Persist();
      r := Success(());
    }

    // -------------------------------------------------------------------------
    // Tiempos

    /** `createTiempo`: `pnt_ids` deduplicated, then every id must exist. */
    method CreateTiempo(p: TiempoPayload, generated: string) returns (r: Result<Tiempo, Error>)
      modifies this
      ensures r == TiempoCreation(old(state), p, generated)
      ensures r.Failure? ==> state == old(state) && saves == old(saves)
      ensures r.Success? ==> state == StoreTiempo(old(state), r.value.identifier, r.value) && saves == old(saves) + 1
      ensures Valid(old(state)) ==> Valid(state)
    {
      r := TiempoCreation(state, p, generated);
      if r.Success? {
        TiempoCreationValid(state, p, generated);
        state := StoreTiempo(state, r.value.identifier, r.value);
        Persist();
      }
    }

    /** `updateTiempo`: `pnt_ids` is replaced only when supplied, and then only
        by a deduplicated list of existing ids. */
    method UpdateTiempo(id: string, p: TiempoPayload) returns (r: Result<Tiempo, Error>)
      modifies this
      ensures r == TiempoUpdate(old(state), id, p)
      ensures r.Failure? ==> state == old(state) && saves == old(saves)
      ensures r.Success? ==> state == StoreTiempo(old(state), id, r.value) && saves == old(saves) + 1
      ensures r.Success? && Valid(old(state)) ==> TiempoFieldsKept(old(state.tiempos.rows[id]), r.value, p)
      ensures Valid(old(state)) ==> Valid(state)
    {
      r := TiempoUpdate(state, id, p);
      if r.Success? {
        TiempoUpdateValid(state, id, p);
        state := StoreTiempo(state, id, r.value);
        Persist();
      }
    }

    /** `deleteTiempo`: removes the tiempo and, carpeta by carpeta, every
        reference to it. */
    method DeleteTiempo(id: string) returns (r: Result<(), Error>)
      modifies this
      ensures id !in old(state.tiempos.rows) ==>
                r == Failure(NotFound(TiempoKind)) && state == old(state) && saves == old(saves)
      ensures id in old(state.tiempos.rows) ==>
                r == Success(()) && state == DropTiempo(old(state), id) && saves == old(saves) + 1
      ensures Valid(old(state)) ==> Valid(state)
    {
      if id !in state.tiempos.rows {
        return Failure(NotFound(TiempoKind));
      }
      ghost var before := state;
      state := state.(tiempos := Remove(state.tiempos, id));
      var keys := state.carpetas.keys;
      StripTiempoEnds(before.carpetas, id);
      var i := 0;
      while i < |keys|
        invariant 0 <= i <= |keys| && keys == before.carpetas.keys
        invariant state == before.(tiempos := Remove(before.tiempos, id), carpetas := StripTiempoUpTo(before.carpetas, id, i))
        invariant saves == old(saves)
      {
        var k := keys[i];
        StripTiempoStep(before.carpetas, id, i);
        var c := state.carpetas.rows[k];
        state := state.(carpetas := Put(state.carpetas, k, c.(tiempoIds := Without(c.tiempoIds, id))));
        i := i + 1;
      }
      if Valid(before) {
        DropTiempoValid(before, id);
      }
      assert saves == old(saves);
      Persist();
      r := Success(());
    }

    /** `addPntToTiempo`: both ends must exist; the id is appended unless it is
        already listed. */
    method AddPntToTiempo(tiempoId: string, pntId: string) returns (r: Result<Tiempo, Error>)
      modifies this
      ensures tiempoId !in old(state.tiempos.rows) ==> r == Failure(NotFound(TiempoKind))
      ensures tiempoId in old(state.tiempos.rows) && pntId !in old(state.pnts.rows) ==>
                r == Failure(NotFound(PntKind))
      ensures r.Failure? ==> state == old(state) && saves == old(saves)
      ensures tiempoId in old(state.tiempos.rows) && pntId in old(state.pnts.rows) ==>
                && state == LinkPnt(old(state), tiempoId, pntId)
                && r == Success(state.tiempos.rows[tiempoId])
                && saves == old(saves) + 1
      ensures Valid(old(state)) ==> Valid(state)
    {
      var found := Get(state.tiempos, tiempoId);
      if found.None? {
        return Failure(NotFound(TiempoKind));
      }
      if pntId !in state.pnts.rows {
        return Failure(NotFound(PntKind));
      }
      var t := found.value;
      t := t.(pntIds := AddOnce(t.pntIds, pntId));
      if Valid(state) {
        LinkPntValid(state, tiempoId, pntId);
      }
      state := state.(tiempos := Put(state.tiempos, tiempoId, t));
      assert saves == old(saves);
      Persist();
      r := Success(t);
    }

    /** `removePntFromTiempo`: only the tiempo must exist; unlisted ids are a
        no-op. */
    method RemovePntFromTiempo(tiempoId: string, pntId: string) returns (r: Result<Tiempo, Error>)
      modifies this
      ensures tiempoId !in old(state.tiempos.rows) ==>
                r == Failure(NotFound(TiempoKind)) && state == old(state) && saves == old(saves)
      ensures tiempoId in old(state.tiempos.rows) ==>
                && state == UnlinkPnt(old(state), tiempoId, pntId)
                && r == Success(state.tiempos.rows[tiempoId])
                && saves == old(saves) + 1
      ensures Valid(old(state)) ==> Valid(state)
    {
      var found := Get(state.tiempos, tiempoId);
      if found.None? {
        return Failure(NotFound(TiempoKind));
      }
      var t := found.value;
      t := t.(pntIds := Without(t.pntIds, pntId));
      if Valid(state) {
        UnlinkPntValid(state, tiempoId, pntId);
      }
      state := state.(tiempos := Put(state.tiempos, tiempoId, t));
      assert saves == old(saves);
      Persist();
      r := Success(t);
    }

    // -------------------------------------------------------------------------
    // Carpetas

    /** `createCarpeta`: the date is parsed before the name is checked, and
        `tiempo_ids` is deduplicated, then every id must exist. */
    method CreateCarpeta(p: CarpetaPayload, generated: string) returns (r: Result<Carpeta, Error>)
      modifies this
      ensures r == CarpetaCreation(old(state), p, generated, dates)
      ensures r.Failure? ==> state == old(state) && saves == old(saves)
      ensures r.Success? ==> state == StoreCarpeta(old(state), r.value.identifier, r.value) && saves == old(saves) + 1
      ensures Valid(old(state)) ==> Valid(state)
    {
      r := CarpetaCreation(state, p, generated, dates);
      if r.Success? {
        CarpetaCreationValid(state, p, generated, dates);
        state := StoreCarpeta(state, r.value.identifier, r.value);
        Persist();
      }
    }

    /** `updateCarpeta`: the date is re-parsed and `tiempo_ids` replaced only
        when supplied. */
    method UpdateCarpeta(id: string, p: CarpetaPayload) returns (r: Result<Carpeta, Error>)
      modifies this
      ensures r == CarpetaUpdate(old(state), id, p, dates)
      ensures r.Failure? ==> state == old(state) && saves == old(saves)
      ensures r.Success? ==> state == StoreCarpeta(old(state), id, r.value) && saves == old(saves) + 1
      ensures r.Success? && Valid(old(state)) ==> CarpetaFieldsKept(old(state.carpetas.rows[id]), r.value, p)
      ensures Valid(old(state)) ==> Valid(state)
    {
      r := CarpetaUpdate(state, id, p, dates);
      if r.Success? {
        CarpetaUpdateValid(state, id, p, dates);
        state := StoreCarpeta(state, id, r.value);
        Persist();
      }
    }

    /** `deleteCarpeta`: nothing refers to a carpeta, so nothing cascades. */
    method DeleteCarpeta(id: string) returns (r: Result<(), Error>)
      modifies this
      ensures id !in old(state.carpetas.rows) ==>
                r == Failure(NotFound(CarpetaKind)) && state == old(state) && saves == old(saves)
      ensures id in old(state.carpetas.rows) ==>
                r == Success(()) && state == DropCarpeta(old(state), id) && saves == old(saves) + 1
      ensures Valid(old(state)) ==> Valid(state)
    {
      if id !in state.carpetas.rows {
        return Failure(NotFound(CarpetaKind));
      }
      if Valid(state) {
        DropCarpetaValid(state, id);
      }
      state := DropCarpeta(state, id);
      assert saves == old(saves);
      Persist();
      r := Success(());
    }

    /** `addTiempoToCarpeta`: both ends must exist; the id is appended unless
        it is already listed. */
    method AddTiempoToCarpeta(carpetaId: string, tiempoId: string) returns (r: Result<Carpeta, Error>)
      modifies this
      ensures carpetaId !in old(state.carpetas.rows) ==> r == Failure(NotFound(CarpetaKind))
      ensures carpetaId in old(state.carpetas.rows) && tiempoId !in old(state.tiempos.rows) ==>
                r == Failure(NotFound(TiempoKind))
      ensures r.Failure? ==> state == old(state) && saves == old(saves)
      ensures carpetaId in old(state.carpetas.rows) && tiempoId in old(state.tiempos.rows) ==>
                && state == LinkTiempo(old(state), carpetaId, tiempoId)
                && r == Success(state.carpetas.rows[carpetaId])
                && saves == old(saves) + 1
      ensures Valid(old(state)) ==> Valid(state)
    {
      var found := Get(state.carpetas, carpetaId);
      if found.None? {
        return Failure(NotFound(CarpetaKind));
      }
      if tiempoId !in state.tiempos.rows {
        return Failure(NotFound(TiempoKind));
      }
      var c := found.value;
      c := c.(tiempoIds := AddOnce(c.tiempoIds, tiempoId));
      if Valid(state) {
        LinkTiempoValid(state, carpetaId, tiempoId);
      }
      state := state.(carpetas := Put(state.carpetas, carpetaId, c));
      assert saves == old(saves);
      Persist();
      r := Success(c);
    }

    /** `removeTiempoFromCarpeta`: only the carpeta must exist; unlisted ids
        are a no-op. */
    method RemoveTiempoFromCarpeta(carpetaId: string, tiempoId: string) returns (r: Result<Carpeta, Error>)
      modifies this
      ensures carpetaId !in old(state.carpetas.rows) ==>
                r == Failure(NotFound(CarpetaKind)) && state == old(state) && saves == old(saves)
      ensures carpetaId in old(state.carpetas.rows) ==>
                && state == UnlinkTiempo(old(state), carpetaId, tiempoId)
                && r == Success(state.carpetas.rows[carpetaId])
                && saves == old(saves) + 1
      ensures Valid(old(state)) ==> Valid(state)
    {
      var found := Get(state.carpetas, carpetaId);
      if found.None? {
        return Failure(NotFound(CarpetaKind));
      }
      var c := found.value;
      c := c.(tiempoIds := Without(c.tiempoIds, tiempoId));
      if Valid(state) {
        UnlinkTiempoValid(state, carpetaId, tiempoId);
      }
      state := state.(carpetas := Put(state.carpetas, carpetaId, c));
      assert saves == old(saves);
      Persist();
      r := Success(c);
    }

    // -------------------------------------------------------------------------
    // Reports

    /** `resumenGeneral`: one entry per carpeta, in stored order. */
    method ResumenGeneral() returns (r: seq<CarpetaResumen>)
      ensures r == Resumen(state)
    {
      var db := state;
      var keys, rows := db.carpetas.keys, db.carpetas.rows;
      assert forall j :: 0 <= j < |keys| ==> keys[j] in rows;
      r := [];
      var i := 0;
      while i < |keys|
        invariant 0 <= i <= |keys|
        invariant |r| == i
        invariant forall j :: 0 <= j < i ==> r[j] == CarpetaReport(rows[keys[j]], db)
      {
        var e := ResumenCarpeta(rows[keys[i]]);
        var done := r;
        r := r + [e];
        assert forall j :: 0 <= j < i ==> r[j] == done[j];
        i := i + 1;
      }
      var expected := Resumen(db);
      assert forall j :: 0 <= j < |r| ==> r[j] == expected[j];
    }

    /** The body of the outer loop of `resumenGeneral`: walks the carpeta's
        `tiempo_ids`, skipping dangling ones, and totals the tiempos. */
    method ResumenCarpeta(c: Carpeta) returns (e: CarpetaResumen)
      ensures e == CarpetaReport(c, state)
    {
      var total := 0;
      var tiempos: seq<TiempoResumen> := [];
      var i := 0;
      while i < |c.tiempoIds|
        invariant 0 <= i <= |c.tiempoIds|
        invariant tiempos == TiempoReports(c.tiempoIds[..i], state)
        invariant total == Calculada(tiempos)
      {
        var id := c.tiempoIds[i];
        assert c.tiempoIds[..i + 1] == c.tiempoIds[..i] + [id];
        TiempoReportsSnoc(c.tiempoIds[..i], id, state);
        if id in state.tiempos.rows {
          var entry := ResumenTiempo(state.tiempos.rows[id]);
          total := total + entry.duracionTotalCalculada;
          assert (tiempos + [entry])[..|tiempos|] == tiempos;
          tiempos := tiempos + [entry];
        }
        i := i + 1;
      }
      assert c.tiempoIds[..i] == c.tiempoIds;
      e := CarpetaResumen(c, tiempos, total);
    }

    /** The body of the middle loop of `resumenGeneral`: the tiempo's base
        duration plus that of every existing PNT it lists. */
    method ResumenTiempo(t: Tiempo) returns (e: TiempoResumen)
      ensures e == TiempoReport(t, state.pnts.rows)
    {
      var duracion := t.duracionTotal;
      var pnts: seq<Pnt> := [];
      var i := 0;
      while i < |t.pntIds|
        invariant 0 <= i <= |t.pntIds|
        invariant pnts == Resolve(t.pntIds[..i], state.pnts.rows)
        invariant duracion == t.duracionTotal + Segundos(pnts)
      {
        var id := t.pntIds[i];
        if id in state.pnts.rows {
          var p := state.pnts.rows[id];
          duracion := duracion + p.duracionSegundos;
          assert (pnts + [p])[..|pnts|] == pnts;
          pnts := pnts + [p];
        }
        assert t.pntIds[..i + 1][..i] == t.pntIds[..i];
        i := i + 1;
      }
      assert t.pntIds[..i] == t.pntIds;
      e := TiempoResumen(t, pnts, duracion);
    }

    /** `agendaPorFecha`: the carpetas dated on the parsed date, in stored
        order, each with its existing tiempos. */
    method AgendaPorFecha(fecha: string) returns (r: Result<seq<AgendaEntry>, Error>)
      ensures match ParseDate(Some(fecha), dates)
              case Failure(e) => r == Failure(e)
              case Success(d) => r == Success(Agenda(state, d))
    {
      var parsed := ParseDate(Some(fecha), dates);
      if parsed.Failure? {
        return Failure(parsed.error);
      }
      var target := parsed.value;
      var keys := state.carpetas.keys;
      var detalle: seq<AgendaEntry> := [];
      var i := 0;
      while i < |keys|
        invariant 0 <= i <= |keys|
        invariant forall k :: k in keys[..i] ==> k in state.carpetas.rows
        invariant detalle == Matching(keys[..i], state, target)
      {
        var c := state.carpetas.rows[keys[i]];
        if c.fechaEmision == target {
          detalle := detalle + [AgendaEntry(c, Resolve(c.tiempoIds, state.tiempos.rows))];
        }
        assert keys[..i + 1][..i] == keys[..i];
        i := i + 1;
      }
      assert keys[..i] == keys;
      r := Success(detalle);
    }
  }
}
