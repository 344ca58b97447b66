/** What each create and update of `CmsService` decides before it writes:
    the exception it throws, checked in the order the service checks, or the
    record it stores. */
module Outcomes {

  import opened Wrappers
  import opened Text
  import opened Tables
  import opened Model
  import opened Integrity

  /** Every listed id has a record. */
  predicate AllStored<T>(ids: seq<string>, rows: map<string, T>) {
    forall x :: x in ids ==> x in rows
  }

  /** `createPnt`: duplicate identifier, then empty title or script. */
  function PntCreation(db: Db, p: PntPayload, generated: string): (r: Result<Pnt, Error>)
    ensures var id := EnsureIdentifier(p.identifier, generated);
            var named := Trim(p.titulo.GetOr("")) != [] && Trim(p.guion.GetOr("")) != [];
            && (r == Failure(Duplicate(PntKind)) <==> id in db.pnts.rows)
            && (r == Failure(NameRequired(PntKind)) <==> id !in db.pnts.rows && !named)
            && (r.Success? <==> id !in db.pnts.rows && named)
            && (r.Success? ==> r.value == NewPnt(id, p) && PntOk(id, r.value))
  {
    var id := EnsureIdentifier(p.identifier, generated);
    var rec := NewPnt(id, p);
    if id in db.pnts.rows then Failure(Duplicate(PntKind))
    else if rec.titulo == [] || rec.guion == [] then Failure(NameRequired(PntKind))
    else Success(rec)
  }

  /** `updatePnt`: unknown identifier, then a title or script left empty. */
  function PntUpdate(db: Db, id: string, p: PntPayload): (r: Result<Pnt, Error>)
    ensures r == Failure(NotFound(PntKind)) <==> id !in db.pnts.rows
    ensures id in db.pnts.rows ==>
              var rec := MergedPnt(db.pnts.rows[id], p);
              var named := rec.titulo != [] && rec.guion != [];
              && (r == Failure(NameRequired(PntKind)) <==> !named)
              && (r.Success? <==> named)
              && (r.Success? ==> r.value == rec)
  {
    if id !in db.pnts.rows then Failure(NotFound(PntKind))
    else
      var rec := MergedPnt(db.pnts.rows[id], p);
      if rec.titulo == [] || rec.guion == [] then Failure(NameRequired(PntKind))
      else Success(rec)
  }

  /** `createTiempo`: duplicate identifier, then empty name, then the first
      listed PNT that does not exist. */
  function TiempoCreation(db: Db, p: TiempoPayload, generated: string): (r: Result<Tiempo, Error>)
    ensures var id := EnsureIdentifier(p.identifier, generated);
            var nombre, ids := Trim(p.nombre.GetOr("")), p.pntIds.GetOr([]);
            && (r == Failure(Duplicate(TiempoKind)) <==> id in db.tiempos.rows)
            && (r == Failure(NameRequired(TiempoKind)) <==> id !in db.tiempos.rows && nombre == [])
            && (r.Failure? && r.error.UnknownReference? <==>
                  id !in db.tiempos.rows && nombre != [] && !AllStored(ids, db.pnts.rows))
            && (r.Success? <==> id !in db.tiempos.rows && nombre != [] && AllStored(ids, db.pnts.rows))
    ensures var ids := p.pntIds.GetOr([]);
            r.Failure? && r.error.UnknownReference? ==>
              r.error.kind == PntKind && r.error.id in ids && r.error.id !in db.pnts.rows
    ensures r.Failure? && r.error.UnknownReference? ==>
              FirstMissing(p.pntIds.GetOr([]), db.pnts.rows.Keys) == Some(r.error.id)
    ensures var id := EnsureIdentifier(p.identifier, generated);
            r.Success? ==>
              && r.value == Tiempo(id, Trim(p.nombre.GetOr("")), p.duracionTotal.GetOr(0), Dedup(p.pntIds.GetOr([])))
              && TiempoOk(id, r.value, db.pnts.rows.Keys)
  {
    var id := EnsureIdentifier(p.identifier, generated);
    FirstMissingDedup(p.pntIds.GetOr([]), db.pnts.rows.Keys);
    var rec := Tiempo(id, Trim(p.nombre.GetOr("")), p.duracionTotal.GetOr(0), Dedup(p.pntIds.GetOr([])));
    var missing := FirstMissing(rec.pntIds, db.pnts.rows.Keys);
    if id in db.tiempos.rows then Failure(Duplicate(TiempoKind))
    else if rec.nombre == [] then Failure(NameRequired(TiempoKind))
    else if missing.Some? then Failure(UnknownReference(PntKind, missing.value))
    else Success(rec)
  }

  /** `updateTiempo`: unknown identifier, then (when `pnt_ids` is supplied)
      the first listed PNT that does not exist, then a name left empty. */
  function TiempoUpdate(db: Db, id: string, p: TiempoPayload): (r: Result<Tiempo, Error>)
    ensures r == Failure(NotFound(TiempoKind)) <==> id !in db.tiempos.rows
    ensures id in db.tiempos.rows ==>
              var t0 := db.tiempos.rows[id];
              var refsOk := p.pntIds.None? || AllStored(p.pntIds.value, db.pnts.rows);
              var nombre := Merge(t0.nombre, p.nombre);
              && (r.Failure? && r.error.UnknownReference? <==> !refsOk)
              && (r == Failure(NameRequired(TiempoKind)) <==> refsOk && nombre == [])
              && (r.Success? <==> refsOk && nombre != [])
    ensures r.Failure? && r.error.UnknownReference? ==>
              p.pntIds.Some? && r.error.kind == PntKind && r.error.id in p.pntIds.value && r.error.id !in db.pnts.rows
    ensures r.Failure? && r.error.UnknownReference? ==>
              p.pntIds.Some? && FirstMissing(p.pntIds.value, db.pnts.rows.Keys) == Some(r.error.id)
    ensures r.Success? ==>
              && id in db.tiempos.rows
              && var t0 := db.tiempos.rows[id];
              && r.value.identifier == t0.identifier
              && r.value.nombre == Merge(t0.nombre, p.nombre)
              && r.value.duracionTotal == p.duracionTotal.GetOr(t0.duracionTotal)
              && r.value.pntIds == if p.pntIds.Some? then Dedup(p.pntIds.value) else t0.pntIds
  {
    if id !in db.tiempos.rows then Failure(NotFound(TiempoKind))
    else
      var t0 := db.tiempos.rows[id];
      FirstMissingDedup(p.pntIds.GetOr([]), db.pnts.rows.Keys);
      var ids := if p.pntIds.Some? then Dedup(p.pntIds.value) else t0.pntIds;
      var missing := if p.pntIds.Some? then FirstMissing(ids, db.pnts.rows.Keys) else None;
      var rec := t0.(nombre := Merge(t0.nombre, p.nombre),
                     duracionTotal := p.duracionTotal.GetOr(t0.duracionTotal),
                     pntIds := ids);
      if missing.Some? then Failure(UnknownReference(PntKind, missing.value))
      else if rec.nombre == [] then Failure(NameRequired(TiempoKind))
      else Success(rec)
  }

  /** `createCarpeta`: duplicate identifier, then the date, then empty name,
      then the first listed tiempo that does not exist. */
  function CarpetaCreation(db: Db, p: CarpetaPayload, generated: string, dates: string -> Option<string>): (r: Result<Carpeta, Error>)
    ensures var id := EnsureIdentifier(p.identifier, generated);
            var fecha := ParseDate(p.fechaEmision, dates);
            var nombre, ids := Trim(p.nombre.GetOr("")), p.tiempoIds.GetOr([]);
            && (r == Failure(Duplicate(CarpetaKind)) <==> id in db.carpetas.rows)
            && (r.Failure? && (r.error.DateRequired? || r.error.DateInvalid?) <==> id !in db.carpetas.rows && fecha.Failure?)
            && (id !in db.carpetas.rows && fecha.Failure? ==> r == Failure(fecha.error))
            && (r == Failure(NameRequired(CarpetaKind)) <==> id !in db.carpetas.rows && fecha.Success? && nombre == [])
            && (r.Failure? && r.error.UnknownReference? <==>
                  id !in db.carpetas.rows && fecha.Success? && nombre != [] && !AllStored(ids, db.tiempos.rows))
            && (r.Success? <==>
                  id !in db.carpetas.rows && fecha.Success? && nombre != [] && AllStored(ids, db.tiempos.rows))
    ensures var ids := p.tiempoIds.GetOr([]);
            r.Failure? && r.error.UnknownReference? ==>
              r.error.kind == TiempoKind && r.error.id in ids && r.error.id !in db.tiempos.rows
    ensures r.Failure? && r.error.UnknownReference? ==>
              FirstMissing(p.tiempoIds.GetOr([]), db.tiempos.rows.Keys) == Some(r.error.id)
    ensures var id := EnsureIdentifier(p.identifier, generated);
            r.Success? ==>
              && Success(r.value.fechaEmision) == ParseDate(p.fechaEmision, dates)
              && r.value == Carpeta(id, Trim(p.nombre.GetOr("")), r.value.fechaEmision,
                                    Dedup(p.tiempoIds.GetOr([])), Trim(p.observaciones.GetOr("")))
              && CarpetaOk(id, r.value, db.tiempos.rows.Keys)
  {
    var id := EnsureIdentifier(p.identifier, generated);
    var fecha := ParseDate(p.fechaEmision, dates);
    FirstMissingDedup(p.tiempoIds.GetOr([]), db.tiempos.rows.Keys);
    var ids := Dedup(p.tiempoIds.GetOr([]));
    var missing := FirstMissing(ids, db.tiempos.rows.Keys);
    var nombre := Trim(p.nombre.GetOr(""));
    if id in db.carpetas.rows then Failure(Duplicate(CarpetaKind))
    else if fecha.Failure? then Failure(fecha.error)
    else if nombre == [] then Failure(NameRequired(CarpetaKind))
    else if missing.Some? then Failure(UnknownReference(TiempoKind, missing.value))
    else Success(Carpeta(id, nombre, fecha.value, ids, Trim(p.observaciones.GetOr(""))))
  }

  /** `updateCarpeta`: unknown identifier, then (when supplied) the date,
      then (when supplied) the first listed tiempo that does not exist, then
      a name left empty. */
  function CarpetaUpdate(db: Db, id: string, p: CarpetaPayload, dates: string -> Option<string>): (r: Result<Carpeta, Error>)
    ensures r == Failure(NotFound(CarpetaKind)) <==> id !in db.carpetas.rows
    ensures id in db.carpetas.rows ==>
              var c0 := db.carpetas.rows[id];
              var dateOk := p.fechaEmision.None? || ParseDate(p.fechaEmision, dates).Success?;
              var refsOk := p.tiempoIds.None? || AllStored(p.tiempoIds.value, db.tiempos.rows);
              var nombre := Merge(c0.nombre, p.nombre);
              && (r.Failure? && (r.error.DateRequired? || r.error.DateInvalid?) <==> !dateOk)
              && (r.Failure? && r.error.UnknownReference? <==> dateOk && !refsOk)
              && (r == Failure(NameRequired(CarpetaKind)) <==> dateOk && refsOk && nombre == [])
              && (r.Success? <==> dateOk && refsOk && nombre != [])
    ensures r.Failure? && (r.error.DateRequired? || r.error.DateInvalid?) ==>
              p.fechaEmision.Some? && ParseDate(p.fechaEmision, dates) == Failure(r.error)
    ensures r.Failure? && r.error.UnknownReference? ==>
              p.tiempoIds.Some? && r.error.kind == TiempoKind && r.error.id in p.tiempoIds.value
              && r.error.id !in db.tiempos.rows
    ensures r.Failure? && r.error.UnknownReference? ==>
              p.tiempoIds.Some? && FirstMissing(p.tiempoIds.value, db.tiempos.rows.Keys) == Some(r.error.id)
    ensures r.Success? ==>
              && id in db.carpetas.rows
              && var c0 := db.carpetas.rows[id];
              && r.value.identifier == c0.identifier
              && r.value.nombre == Merge(c0.nombre, p.nombre)
              && r.value.observaciones == Merge(c0.observaciones, p.observaciones)
              && r.value.fechaEmision == (if p.fechaEmision.Some? then ParseDate(p.fechaEmision, dates).value else c0.fechaEmision)
              && r.value.tiempoIds == if p.tiempoIds.Some? then Dedup(p.tiempoIds.value) else c0.tiempoIds
  {
    if id !in db.carpetas.rows then Failure(NotFound(CarpetaKind))
    else
      var c0 := db.carpetas.rows[id];
      FirstMissingDedup(p.tiempoIds.GetOr([]), db.tiempos.rows.Keys);
      var fecha := if p.fechaEmision.Some? then ParseDate(p.fechaEmision, dates) else Success(c0.fechaEmision);
      var ids := if p.tiempoIds.Some? then Dedup(p.tiempoIds.value) else c0.tiempoIds;
      var missing := if p.tiempoIds.Some? then FirstMissing(ids, db.tiempos.rows.Keys) else None;
      var nombre := Merge(c0.nombre, p.nombre);
      if fecha.Failure? then Failure(fecha.error)
      else if missing.Some? then Failure(UnknownReference(TiempoKind, missing.value))
      else if nombre == [] then Failure(NameRequired(CarpetaKind))
      else Success(c0.(nombre := nombre, fechaEmision := fecha.value, tiempoIds := ids,
                       observaciones := Merge(c0.observaciones, p.observaciones)))
  }

  /** An update of a well-formed carpeta stores a well-formed carpeta, and
      every field the payload leaves out keeps its value. */
  lemma {:induction false} CarpetaUpdateOk(db: Db, id: string, p: CarpetaPayload, dates: string -> Option<string>)
    requires id in db.carpetas.rows && CarpetaOk(id, db.carpetas.rows[id], db.tiempos.rows.Keys)
    ensures var r := CarpetaUpdate(db, id, p, dates);
            r.Success? ==> CarpetaOk(id, r.value, db.tiempos.rows.Keys) && CarpetaFieldsKept(db.carpetas.rows[id], r.value, p)
  {
    var c0 := db.carpetas.rows[id];
    var r := CarpetaUpdate(db, id, p, dates);
    if r.Success? {
      if p.tiempoIds.Some? {
        assert FirstMissing(Dedup(p.tiempoIds.value), db.tiempos.rows.Keys).None?;
      }
      assert Trimmed(c0.nombre) && Trimmed(c0.observaciones);
    }
  }

  /** An update of a well-formed PNT stores a well-formed PNT, and every
      field the payload leaves out keeps its value. */
  lemma {:induction false} PntUpdateOk(db: Db, id: string, p: PntPayload)
    requires id in db.pnts.rows && PntOk(id, db.pnts.rows[id])
    ensures var r := PntUpdate(db, id, p);
            r.Success? ==> PntOk(id, r.value) && PntFieldsKept(db.pnts.rows[id], r.value, p)
  {
    var p0 := db.pnts.rows[id];
    assert Trimmed(p0.titulo) && Trimmed(p0.guion) && Trimmed(p0.formato) && Trimmed(p0.marca) && Trimmed(p0.notas);
  }

  /** An update of a well-formed tiempo stores a well-formed tiempo, and every
      field the payload leaves out keeps its value. */
  lemma {:induction false} TiempoUpdateOk(db: Db, id: string, p: TiempoPayload)
    requires id in db.tiempos.rows && TiempoOk(id, db.tiempos.rows[id], db.pnts.rows.Keys)
    ensures var r := TiempoUpdate(db, id, p);
            r.Success? ==> TiempoOk(id, r.value, db.pnts.rows.Keys) && TiempoFieldsKept(db.tiempos.rows[id], r.value, p)
  {
    var r := TiempoUpdate(db, id, p);
    if r.Success? && p.pntIds.Some? {
      assert FirstMissing(Dedup(p.pntIds.value), db.pnts.rows.Keys).None?;
    }
  }

  /** Storing what `createPnt` accepts keeps the store valid. */
  lemma PntCreationValid(db: Db, p: PntPayload, generated: string)
    ensures var r := PntCreation(db, p, generated);
            r.Success? && Valid(db) ==> Valid(StorePnt(db, r.value.identifier, r.value))
  {
    var r := PntCreation(db, p, generated);
    if r.Success? && Valid(db) {
      StorePntValid(db, r.value.identifier, r.value);
    }
  }

  /** Storing what `updatePnt` accepts keeps the store valid, and the fields
      the payload leaves out keep their values. */
  lemma PntUpdateValid(db: Db, id: string, p: PntPayload)
    ensures var r := PntUpdate(db, id, p);
            r.Success? && Valid(db) ==>
              && Valid(StorePnt(db, id, r.value))
              && PntFieldsKept(db.pnts.rows[id], r.value, p)
  {
    var r := PntUpdate(db, id, p);
    if r.Success? && Valid(db) {
      assert PntOk(id, db.pnts.rows[id]);
      PntUpdateOk(db, id, p);
      StorePntValid(db, id, r.value);
    }
  }

  /** Storing what `createTiempo` accepts keeps the store valid. */
  lemma TiempoCreationValid(db: Db, p: TiempoPayload, generated: string)
    ensures var r := TiempoCreation(db, p, generated);
            r.Success? && Valid(db) ==> Valid(StoreTiempo(db, r.value.identifier, r.value))
  {
    var r := TiempoCreation(db, p, generated);
    if r.Success? && Valid(db) {
      StoreTiempoValid(db, r.value.identifier, r.value);
    }
  }

  /** Storing what `updateTiempo` accepts keeps the store valid, and the fields
      the payload leaves out keep their values. */
  lemma TiempoUpdateValid(db: Db, id: string, p: TiempoPayload)
    ensures var r := TiempoUpdate(db, id, p);
            r.Success? && Valid(db) ==>
              && Valid(StoreTiempo(db, id, r.value))
              && TiempoFieldsKept(db.tiempos.rows[id], r.value, p)
  {
    var r := TiempoUpdate(db, id, p);
    if r.Success? && Valid(db) {
      assert TiempoOk(id, db.tiempos.rows[id], db.pnts.rows.Keys);
      TiempoUpdateOk(db, id, p);
      StoreTiempoValid(db, id, r.value);
    }
  }

  /** Storing what `createCarpeta` accepts keeps the store valid. */
  lemma CarpetaCreationValid(db: Db, p: CarpetaPayload, generated: string, dates: string -> Option<string>)
    ensures var r := CarpetaCreation(db, p, generated, dates);
            r.Success? && Valid(db) ==> Valid(StoreCarpeta(db, r.value.identifier, r.value))
  {
    var r := CarpetaCreation(db, p, generated, dates);
    if r.Success? && Valid(db) {
      StoreCarpetaValid(db, r.value.identifier, r.value);
    }
  }

  /** Storing what `updateCarpeta` accepts keeps the store valid, and the fields
      the payload leaves out keep their values. */
  lemma CarpetaUpdateValid(db: Db, id: string, p: CarpetaPayload, dates: string -> Option<string>)
    ensures var r := CarpetaUpdate(db, id, p, dates);
            r.Success? && Valid(db) ==>
              && Valid(StoreCarpeta(db, id, r.value))
              && CarpetaFieldsKept(db.carpetas.rows[id], r.value, p)
  {
    var r := CarpetaUpdate(db, id, p, dates);
    if r.Success? && Valid(db) {
      assert CarpetaOk(id, db.carpetas.rows[id], db.tiempos.rows.Keys);
      CarpetaUpdateOk(db, id, p, dates);
      StoreCarpetaValid(db, id, r.value);
    }
  }
}
