/** The records the CMS stores, the payloads its API accepts, the errors it
    raises, and the integrity invariant of the whole store. */
module Model {

  import opened Wrappers
  import opened Text
  import opened Tables

  /** An advertising spot: script, duration and free-form metadata. */
  datatype Pnt = Pnt(
    identifier: string,
    titulo: string,
    guion: string,
    duracionSegundos: int,
    formato: string,
    marca: string,
    notas: string)

  /** A time block: a base duration plus an ordered list of PNT ids. */
  datatype Tiempo = Tiempo(
    identifier: string,
    nombre: string,
    duracionTotal: int,
    pntIds: seq<string>)

  /** A dated program folder: an ordered list of tiempo ids. */
  datatype Carpeta = Carpeta(
    identifier: string,
    nombre: string,
    fechaEmision: string,
    tiempoIds: seq<string>,
    observaciones: string)

  /** The persisted state: the three keyed tables `pnts`, `tiempos`, `carpetas`. */
  datatype Db = Db(pnts: Table<Pnt>, tiempos: Table<Tiempo>, carpetas: Table<Carpeta>)

  /** Request payloads: `None` is a key that is absent or JSON `null`. */
  datatype PntPayload = PntPayload(
    identifier: Option<string>,
    titulo: Option<string>,
    guion: Option<string>,
    duracionSegundos: Option<int>,
    formato: Option<string>,
    marca: Option<string>,
    notas: Option<string>)

  datatype TiempoPayload = TiempoPayload(
    identifier: Option<string>,
    nombre: Option<string>,
    duracionTotal: Option<int>,
    pntIds: Option<seq<string>>)

  datatype CarpetaPayload = CarpetaPayload(
    identifier: Option<string>,
    nombre: Option<string>,
    fechaEmision: Option<string>,
    tiempoIds: Option<seq<string>>,
    observaciones: Option<string>)

  datatype Kind = PntKind | TiempoKind | CarpetaKind

  /** Every `InvalidArgumentException` the service throws. */
  datatype Error =
    | Duplicate(kind: Kind)
    | NameRequired(kind: Kind)
    | NotFound(kind: Kind)
    | UnknownReference(kind: Kind, id: string)
    | DateRequired
    | DateInvalid

  /** The exception message the API returns for each error. */
  function Message(e: Error): (r: string)
    ensures r != []
    ensures e.UnknownReference? ==>
              var tail := " no existe.";
              |r| >= |e.id| + |tail| && r[|r| - |tail|..] == tail && r[|r| - |tail| - |e.id|..|r| - |tail|] == e.id
  {
    match e
    case Duplicate(PntKind) => "Ya existe un PNT con ese identificador."
    case Duplicate(TiempoKind) => "Ya existe un tiempo con ese identificador."
    case Duplicate(CarpetaKind) => "Ya existe una carpeta con ese identificador."
    case NameRequired(PntKind) => "El t\U{00ED}tulo y el guion son obligatorios."
    case NameRequired(TiempoKind) => "El nombre del tiempo es obligatorio."
    case NameRequired(CarpetaKind) => "El nombre de la carpeta es obligatorio."
    case NotFound(PntKind) => "PNT inexistente."
    case NotFound(TiempoKind) => "Tiempo inexistente."
    case NotFound(CarpetaKind) => "Carpeta inexistente."
    case UnknownReference(PntKind, id) => "El PNT " + id + " no existe."
    case UnknownReference(_, id) => "El tiempo " + id + " no existe."
    case DateRequired => "La fecha de emisi\U{00F3}n es obligatoria."
    case DateInvalid => "Formato de fecha inv\U{00E1}lido, utilice YYYY-MM-DD."
  }

  /** `ensureIdentifier`: a supplied identifier that is not blank is used as
      given (untrimmed); otherwise the freshly generated one. */
  function EnsureIdentifier(supplied: Option<string>, generated: string): (r: string)
    ensures supplied.Some? && Trim(supplied.value) != [] ==> r == supplied.value
    ensures supplied.None? || Trim(supplied.value) == [] ==> r == generated
  {
    if supplied.None? || Trim(supplied.value) == [] then generated else supplied.value
  }

  /** `trim($payload[f] ?? $record[f])`: a supplied field is trimmed, an
      absent one is the stored value trimmed, which leaves an already trimmed
      value as it was. */
  function Merge(previous: string, supplied: Option<string>): (r: string)
    ensures Trimmed(r)
    ensures supplied.None? ==> r == Trim(previous)
    ensures supplied.None? && Trimmed(previous) ==> r == previous
    ensures supplied.Some? ==> r == Trim(supplied.value)
  {
    Trim(supplied.GetOr(previous))
  }

  /** `parseDate`: blank or absent input is `DateRequired`; otherwise the first
      ten characters of the trimmed input go to `dates`, which stands for
      `DateTimeImmutable::createFromFormat('Y-m-d', ..)->format('Y-m-d')`. */
  function ParseDate(value: Option<string>, dates: string -> Option<string>): (r: Result<string, Error>)
    ensures r == Failure(DateRequired) <==> value.None? || Trim(value.value) == []
    ensures r.Failure? ==> r.error == DateRequired || r.error == DateInvalid
    ensures r.Success? ==> value.Some? && dates(Prefix(Trim(value.value), 10)) == Some(r.value)
    ensures r.Success? <==> value.Some? && Trim(value.value) != [] && dates(Prefix(Trim(value.value), 10)).Some?
  {
    if value.None? || Trim(value.value) == [] then Failure(DateRequired)
    else
      match dates(Prefix(Trim(value.value), 10))
      case None => Failure(DateInvalid)
      case Some(d) => Success(d)
  }

  /** The record `createPnt` builds from a payload. */
  function NewPnt(id: string, p: PntPayload): (r: Pnt)
    ensures r.identifier == id
    ensures Trimmed(r.titulo) && Trimmed(r.guion) && Trimmed(r.formato) && Trimmed(r.marca) && Trimmed(r.notas)
    ensures p.titulo.Some? ==> r.titulo == Trim(p.titulo.value)
    ensures p.guion.Some? ==> r.guion == Trim(p.guion.value)
    ensures p.formato.Some? ==> r.formato == Trim(p.formato.value)
    ensures p.marca.Some? ==> r.marca == Trim(p.marca.value)
    ensures p.notas.Some? ==> r.notas == Trim(p.notas.value)
    ensures p.titulo.None? ==> r.titulo == []
    ensures p.guion.None? ==> r.guion == []
    ensures p.formato.None? ==> r.formato == []
    ensures p.marca.None? ==> r.marca == []
    ensures p.notas.None? ==> r.notas == []
    ensures r.duracionSegundos == if p.duracionSegundos.Some? then p.duracionSegundos.value else 0
  {
    Pnt(id, Trim(p.titulo.GetOr("")), Trim(p.guion.GetOr("")), p.duracionSegundos.GetOr(0),
        Trim(p.formato.GetOr("")), Trim(p.marca.GetOr("")), Trim(p.notas.GetOr("")))
  }

  /** Creating is updating a blank record: every field the payload leaves out
      is empty, or zero for the duration. */
  lemma NewIsMergedBlank(id: string, p: PntPayload)
    ensures NewPnt(id, p) == MergedPnt(Pnt(id, "", "", 0, "", "", ""), p)
  {
  }

  /** The record `updatePnt` builds: supplied fields over the stored ones. */
  function MergedPnt(r0: Pnt, p: PntPayload): (r: Pnt)
    ensures r.identifier == r0.identifier
    ensures Trimmed(r.titulo) && Trimmed(r.guion) && Trimmed(r.formato) && Trimmed(r.marca) && Trimmed(r.notas)
    ensures p.titulo.Some? ==> r.titulo == Trim(p.titulo.value)
    ensures p.guion.Some? ==> r.guion == Trim(p.guion.value)
    ensures p.formato.Some? ==> r.formato == Trim(p.formato.value)
    ensures p.marca.Some? ==> r.marca == Trim(p.marca.value)
    ensures p.notas.Some? ==> r.notas == Trim(p.notas.value)
    ensures p.duracionSegundos.Some? ==> r.duracionSegundos == p.duracionSegundos.value
    ensures p.titulo.None? ==> r.titulo == Trim(r0.titulo)
    ensures p.guion.None? ==> r.guion == Trim(r0.guion)
    ensures p.formato.None? ==> r.formato == Trim(r0.formato)
    ensures p.marca.None? ==> r.marca == Trim(r0.marca)
    ensures p.notas.None? ==> r.notas == Trim(r0.notas)
    ensures p.duracionSegundos.None? ==> r.duracionSegundos == r0.duracionSegundos
  {
    r0.(titulo := Merge(r0.titulo, p.titulo),
        guion := Merge(r0.guion, p.guion),
        duracionSegundos := p.duracionSegundos.GetOr(r0.duracionSegundos),
        formato := Merge(r0.formato, p.formato),
        marca := Merge(r0.marca, p.marca),
        notas := Merge(r0.notas, p.notas))
  }

  /** Every field the payload leaves out keeps its stored value. */
  predicate PntFieldsKept(before: Pnt, after: Pnt, p: PntPayload) {
    && after.identifier == before.identifier
    && (p.titulo.None? ==> after.titulo == before.titulo)
    && (p.guion.None? ==> after.guion == before.guion)
    && (p.duracionSegundos.None? ==> after.duracionSegundos == before.duracionSegundos)
    && (p.formato.None? ==> after.formato == before.formato)
    && (p.marca.None? ==> after.marca == before.marca)
    && (p.notas.None? ==> after.notas == before.notas)
  }

  predicate TiempoFieldsKept(before: Tiempo, after: Tiempo, p: TiempoPayload) {
    && after.identifier == before.identifier
    && (p.nombre.None? ==> after.nombre == before.nombre)
    && (p.duracionTotal.None? ==> after.duracionTotal == before.duracionTotal)
    && (p.pntIds.None? ==> after.pntIds == before.pntIds)
  }

  predicate CarpetaFieldsKept(before: Carpeta, after: Carpeta, p: CarpetaPayload) {
    && after.identifier == before.identifier
    && (p.nombre.None? ==> after.nombre == before.nombre)
    && (p.fechaEmision.None? ==> after.fechaEmision == before.fechaEmision)
    && (p.tiempoIds.None? ==> after.tiempoIds == before.tiempoIds)
    && (p.observaciones.None? ==> after.observaciones == before.observaciones)
  }

  // ---------------------------------------------------------------------------
  // The integrity invariant

  /** No id listed twice, and every listed id present. */
  ghost predicate RefsOk(ids: seq<string>, present: set<string>) {
    NoDup(ids) && forall id :: id in ids ==> id in present
  }

  ghost predicate PntOk(k: string, p: Pnt) {
    && p.identifier == k
    && p.titulo != [] && p.guion != []
    && Trimmed(p.titulo) && Trimmed(p.guion)
    && Trimmed(p.formato) && Trimmed(p.marca) && Trimmed(p.notas)
  }

  ghost predicate TiempoOk(k: string, t: Tiempo, pnts: set<string>) {
    && t.identifier == k
    && t.nombre != [] && Trimmed(t.nombre)
    && RefsOk(t.pntIds, pnts)
  }

  ghost predicate CarpetaOk(k: string, c: Carpeta, tiempos: set<string>) {
    && c.identifier == k
    && c.nombre != [] && Trimmed(c.nombre) && Trimmed(c.observaciones)
    && RefsOk(c.tiempoIds, tiempos)
  }

  /** What the service keeps true of the store: every record filed under its
      own identifier, required text present and trimmed, and every `pnt_ids`
      and `tiempo_ids` list free of duplicates and of dangling ids. */
  ghost predicate Valid(db: Db) {
    && (forall k :: k in db.pnts.rows ==> PntOk(k, db.pnts.rows[k]))
    && (forall k :: k in db.tiempos.rows ==> TiempoOk(k, db.tiempos.rows[k], db.pnts.rows.Keys))
    && (forall k :: k in db.carpetas.rows ==> CarpetaOk(k, db.carpetas.rows[k], db.tiempos.rows.Keys))
  }
}
