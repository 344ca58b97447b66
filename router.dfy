/** The request dispatcher of `backend/index.php` as a pure function: the path
    is cut into segments, the if/switch chain picks one service call (or a
    rejection), and the call's outcome picks the status code and body. */
module Router {

  import opened Wrappers
  import opened Model

  // ---------------------------------------------------------------------------
  // Path segments

  /** `explode($d, $s)`: the pieces between occurrences of `d`; at least one. */
  function Explode(s: string, d: char): (r: seq<string>)
    ensures |r| >= 1
    ensures forall i :: 0 <= i < |r| ==> d !in r[i]
    ensures Join(r, d) == s
  {
    if s == [] then [""]
    else
      var rest := Explode(s[1..], d);
      if s[0] == d then
        [""] + rest
      else
        var r := [[s[0]] + rest[0]] + rest[1..];
        assert r[1..] == rest[1..];
        assert |rest| > 1 ==> Join(rest, d) == rest[0] + [d] + Join(rest[1..], d);
        r
  }

  /** `implode($d, $parts)`. */
  function Join(parts: seq<string>, d: char): string
    requires |parts| >= 1
  {
    if |parts| == 1 then parts[0] else parts[0] + [d] + Join(parts[1..], d)
  }

  /** A prefix without `d` sticks to the first piece of what follows it. */
  lemma {:induction false} ExplodePrefix(p: string, tail: string, d: char)
    requires d !in p
    ensures Explode(p + tail, d) == [p + Explode(tail, d)[0]] + Explode(tail, d)[1..]
    decreases |p|
  {
    if p == [] {
      var e := Explode(tail, d);
      assert p + tail == tail && p + e[0] == e[0];
      assert [e[0]] + e[1..] == e;
    } else {
      assert (p + tail)[1..] == p[1..] + tail;
      ExplodePrefix(p[1..], tail, d);
      assert [p[0]] + (p[1..] + Explode(tail, d)[0]) == p + Explode(tail, d)[0];
    }
  }

  /** Splitting what was joined gives back the pieces. */
  lemma {:induction false} ExplodeJoin(parts: seq<string>, d: char)
    requires |parts| >= 1 && forall i :: 0 <= i < |parts| ==> d !in parts[i]
    ensures Explode(Join(parts, d), d) == parts
    decreases |parts|
  {
    var p := parts[0];
    if |parts| == 1 {
      assert p + [] == p;
      ExplodePrefix(p, [], d);
    } else {
      var rest := Join(parts[1..], d);
      assert p + [d] + rest == p + ([d] + rest);
      ExplodePrefix(p, [d] + rest, d);
      assert ([d] + rest)[1..] == rest;
      ExplodeJoin(parts[1..], d);
    }
  }

  /** `trim($s, '/')`, left half: the longest suffix not starting with `c`;
      only copies of `c` are removed. */
  function StripLeading(s: string, c: char): (r: string)
    ensures r == [] || r[0] != c
    ensures |r| <= |s| && r == s[|s| - |r|..]
    ensures forall i :: 0 <= i < |s| - |r| ==> s[i] == c
  {
    if s != [] && s[0] == c then
      var t := s[1..];
      var r := StripLeading(t, c);
      assert forall i :: 0 < i < |s| - |r| ==> s[i] == t[i - 1];
      r
    else s
  }

  /** `trim($s, '/')`, right half: the longest prefix not ending with `c`;
      only copies of `c` are removed. */
  function StripTrailing(s: string, c: char): (r: string)
    ensures r == [] || r[|r| - 1] != c
    ensures |r| <= |s| && r == s[..|r|]
    ensures forall i :: |r| <= i < |s| ==> s[i] == c
  {
    if s != [] && s[|s| - 1] == c then
      var t := s[..|s| - 1];
      var r := StripTrailing(t, c);
      assert forall i :: |r| <= i < |t| ==> s[i] == t[i];
      r
    else s
  }

  /** PHP truthiness of a string: `""` and `"0"` are falsy. */
  predicate Truthy(s: string) {
    s != "" && s != "0"
  }

  /** `array_values(array_filter($xs))`: the truthy strings, in order. */
  function KeepTruthy(xs: seq<string>): (r: seq<string>)
    ensures |r| <= |xs|
    ensures forall i :: 0 <= i < |r| ==> Truthy(r[i]) && r[i] in xs
    ensures forall x :: x in r <==> x in xs && Truthy(x)
    ensures (forall i :: 0 <= i < |xs| ==> Truthy(xs[i])) ==> r == xs
  {
    if xs == [] then []
    else
      var init, last := xs[..|xs| - 1], xs[|xs| - 1];
      var p := KeepTruthy(init);
      assert forall x :: x in init ==> x in xs;
      if Truthy(last) then p + [last] else p
  }

  /** Filtering keeps the order: a piece added at the end is kept at the end
      exactly when it is truthy. */
  lemma {:induction false} KeepTruthySnoc(xs: seq<string>, x: string)
    ensures KeepTruthy(xs + [x]) == KeepTruthy(xs) + if Truthy(x) then [x] else []
  {
    assert (xs + [x])[..|xs|] == xs;
  }

  /** The segments of a request path: trimmed of `/`, split on `/`, falsy
      pieces dropped. */
  function Segments(path: string): (r: seq<string>)
    ensures forall i :: 0 <= i < |r| ==> Truthy(r[i]) && '/' !in r[i]
  {
    var pieces := Explode(StripTrailing(StripLeading(path, '/'), '/'), '/');
    var r := KeepTruthy(pieces);
    assert forall i :: 0 <= i < |r| ==> r[i] in pieces;
    r
  }

  /** Segments round-trip: a path written as `/` followed by the segments
      joined with `/` yields exactly those segments. */
  lemma {:induction false} SegmentsOfJoin(segs: seq<string>)
    requires |segs| >= 1
    requires forall i :: 0 <= i < |segs| ==> Truthy(segs[i]) && '/' !in segs[i]
    ensures Segments("/" + Join(segs, '/')) == segs
  {
    var j := Join(segs, '/');
    JoinEnds(segs, '/');
    assert ("/" + j)[1..] == j;
    assert StripLeading("/" + j, '/') == j;
    ExplodeJoin(segs, '/');
  }

  /** A join of non-empty pieces starts with the first piece's first character
      and ends with the last piece's last character. */
  lemma {:induction false} JoinEnds(parts: seq<string>, d: char)
    requires |parts| >= 1 && forall i :: 0 <= i < |parts| ==> parts[i] != []
    ensures var j := Join(parts, d);
            j != [] && j[0] == parts[0][0] && j[|j| - 1] == parts[|parts| - 1][|parts[|parts| - 1]| - 1]
    decreases |parts|
  {
    if |parts| > 1 {
      JoinEnds(parts[1..], d);
    }
  }

  // ---------------------------------------------------------------------------
  // Dispatch

  /** What `readJsonBody()` produced, reduced to what the dispatcher itself
      reads: the link ids. The rest of the body goes to the service as is. */
  datatype Body = Json(pntId: Option<string>, tiempoId: Option<string>) | Malformed(reason: string)

  /** The one thing a request does. `kind` names the collection in the path;
      for `Link` and `Unlink` it is the container (tiempo or carpeta). */
  datatype Action =
    | ApiInfo
    | List(kind: Kind)
    | Create(kind: Kind)
    | Fetch(kind: Kind, id: string)
    | Update(kind: Kind, id: string)
    | Delete(kind: Kind, id: string)
    | Link(kind: Kind, id: string, child: string)
    | Unlink(kind: Kind, id: string, child: string)
    | Resumen
    | Agenda(date: string)
    | Reject(message: string)
    | NoRoute

  /** The path segment that names each collection. */
  function Collection(kind: Kind): string {
    match kind
    case PntKind => "pnts"
    case TiempoKind => "tiempos"
    case CarpetaKind => "carpetas"
  }

  /** The message `readJsonBody` throws for a body that is not JSON. */
  function JsonMessage(reason: string): string {
    "JSON inv\U{00E1}lido: " + reason
  }

  /** `readJsonBody()` on a route that only forwards the body. */
  function WithBody(body: Body, a: Action): Action {
    if body.Malformed? then Reject(JsonMessage(body.reason)) else a
  }

  /** `/api/tiempos/{id}/pnts/{pntId}` or `/api/carpetas/{id}/tiempos/{tiempoId}`. */
  predicate IsUnlinkPath(kind: Kind, segs: seq<string>) {
    |segs| > 4
    && ((kind == TiempoKind && segs[3] == "pnts") || (kind == CarpetaKind && segs[3] == "tiempos"))
  }

  /** The `case 'pnts' / 'tiempos' / 'carpetas'` arms. With `fixUnlink` false
      this is the code as written: an entity DELETE is matched for any path
      with an id segment, before the sub-resource arm is looked at. With
      `fixUnlink` true an unlink path is left to the sub-resource arm. */
  function EntityRoute(fixUnlink: bool, kind: Kind, m: string, segs: seq<string>, body: Body): Action
    requires |segs| >= 2
  {
    if m == "GET" && |segs| == 2 then List(kind)
    else if m == "POST" && |segs| == 2 then WithBody(body, Create(kind))
    else if |segs| > 2 then
      var id := segs[2];
      if m == "GET" then Fetch(kind, id)
      else if m == "PUT" then WithBody(body, Update(kind, id))
      else if m == "DELETE" && !(fixUnlink && IsUnlinkPath(kind, segs)) then Delete(kind, id)
      else if kind == TiempoKind && |segs| > 3 && segs[3] == "pnts" then
        SubRoute(kind, id, m, segs, body, if body.Json? then body.pntId else None, "pnt_id")
      else if kind == CarpetaKind && |segs| > 3 && segs[3] == "tiempos" then
        SubRoute(kind, id, m, segs, body, if body.Json? then body.tiempoId else None, "tiempo_id")
      else NoRoute
    else NoRoute
  }

  /** `/api/tiempos/{id}/pnts[/{pntId}]` and `/api/carpetas/{id}/tiempos[/{tiempoId}]`. */
  function SubRoute(kind: Kind, id: string, m: string, segs: seq<string>, body: Body, child: Option<string>, field: string): Action
    requires |segs| > 3
  {
    if m == "POST" then
      if body.Malformed? then Reject(JsonMessage(body.reason))
      else if child.None? then Reject("Se requiere " + field)
      else Link(kind, id, child.value)
    else if m == "DELETE" && |segs| > 4 then Unlink(kind, id, segs[4])
    else NoRoute
  }

  /** The `case 'report'` arm. */
  function ReportRoute(m: string, segs: seq<string>, date: Option<string>): Action
    requires |segs| >= 2
  {
    if m == "GET" && |segs| > 2 then
      if segs[2] == "resumen" then Resumen
      else if segs[2] == "agenda" then
        if date.None? then Reject("Par\U{00E1}metro date obligatorio") else Agenda(date.value)
      else NoRoute
    else NoRoute
  }

  /** The dispatch chain of `index.php`, for a method, the path's segments, the
      body and the `date` query parameter. */
  function Route(fixUnlink: bool, m: string, segs: seq<string>, body: Body, date: Option<string>): (a: Action)
    ensures |segs| == 0 || segs[0] != "api" <==> a == ApiInfo
  {
    if |segs| == 0 || segs[0] != "api" then ApiInfo
    else if |segs| < 2 || !Truthy(segs[1]) then NoRoute
    else if segs[1] == "pnts" then EntityRoute(fixUnlink, PntKind, m, segs, body)
    else if segs[1] == "tiempos" then EntityRoute(fixUnlink, TiempoKind, m, segs, body)
    else if segs[1] == "carpetas" then EntityRoute(fixUnlink, CarpetaKind, m, segs, body)
    else if segs[1] == "report" then ReportRoute(m, segs, date)
    else NoRoute
  }

  /** The dispatch chain exactly as written. */
  function DispatchAsWritten(m: string, segs: seq<string>, body: Body, date: Option<string>): Action {
    Route(false, m, segs, body, date)
  }

  /** The dispatch chain with the unlink paths taken out of the entity
      DELETE, so that the unlink routes are reachable. */
  function Dispatch(m: string, segs: seq<string>, body: Body, date: Option<string>): Action {
    Route(true, m, segs, body, date)
  }

  // ---------------------------------------------------------------------------
  // Responses

  /** How the service call of an action ended: it returned (`found` is false
      only for a getter that returned `null`), or it threw. */
  datatype Outcome =
    | Returned(found: bool)
    | InvalidArgument(message: string)
    | RuntimeFailure(message: string)
    | OtherFailure(message: string)

  datatype Payload = Descriptor | Data | NoBody | ErrorBody(message: string) | Unexpected(detail: string)

  datatype Response = Response(status: int, payload: Payload)

  /** The message the item GET routes send with their 404. */
  function MissingMessage(kind: Kind): string {
    match kind
    case PntKind => "PNT inexistente"
    case TiempoKind => "Tiempo inexistente"
    case CarpetaKind => "Carpeta inexistente"
  }

  /** `respond(...)` for the chosen action and the outcome of its service
      call; the `catch` arms turn exceptions into 400 and 500. */
  function Respond(a: Action, o: Outcome): (r: Response)
    ensures r.status in {200, 201, 204, 400, 404, 500}
    ensures r.status == 204 <==> r.payload == NoBody
    ensures r.status == 204 <==> a.Delete? && o.Returned?
    ensures r.status == 201 <==> a.Create? && o.Returned?
    ensures a.Reject? ==> r == Response(400, ErrorBody(a.message))
    ensures r.status == 400 <==> a.Reject? || (a !in {ApiInfo, NoRoute} && o.InvalidArgument?)
  {
    if a == ApiInfo then Response(200, Descriptor)
    else if a == NoRoute then Response(404, ErrorBody("Ruta no encontrada"))
    else if a.Reject? then Response(400, ErrorBody(a.message))
    else
      match o
      case InvalidArgument(message) => Response(400, ErrorBody(message))
      case RuntimeFailure(message) => Response(500, ErrorBody(message))
      case OtherFailure(message) => Response(500, Unexpected(message))
      case Returned(found) => OnReturn(a, found)
  }

  /** `respond(...)` when the service call returned normally. */
  function OnReturn(a: Action, found: bool): (r: Response)
    ensures r.status in {200, 201, 204, 404}
    ensures r.status == 404 <==> a.Fetch? && !found
    ensures r.status == 404 ==> r.payload == ErrorBody(MissingMessage(a.kind))
    ensures r.status == 201 <==> a.Create?
    ensures r.status == 204 <==> a.Delete?
    ensures r.status != 404 <==> r.payload in {Data, NoBody}
  {
    match a
    case Fetch(kind, _) => if found then Response(200, Data) else Response(404, ErrorBody(MissingMessage(kind)))
    case Create(_) => Response(201, Data)
    case Delete(_, _) => Response(204, NoBody)
    case _ => Response(200, Data)
  }

  /** The whole request as written: method, path, body and `date` parameter,
      and the outcome of the service call the dispatcher makes. A preflight
      `OPTIONS` is answered with 204 before the path is looked at. */
  function HandleAsWritten(m: string, path: string, body: Body, date: Option<string>, o: Outcome): (r: Response)
    ensures m == "OPTIONS" ==> r == Response(204, NoBody)
    ensures r.status == 204 <==> m == "OPTIONS" || (DispatchAsWritten(m, Segments(path), body, date).Delete? && o.Returned?)
    ensures var segs := Segments(path);
            m == "DELETE" && |segs| > 4 && segs[0] == "api" && (segs[1] == "tiempos" || segs[1] == "carpetas") ==>
              r == Respond(Delete(if segs[1] == "tiempos" then TiempoKind else CarpetaKind, segs[2]), o)
  {
    if m == "OPTIONS" then Response(204, NoBody)
    else Respond(DispatchAsWritten(m, Segments(path), body, date), o)
  }

  /** The whole request with the corrected dispatch chain: it answers every
      request the way the code as written does, except the unlink requests,
      which reach their service call. */
  function Handle(m: string, path: string, body: Body, date: Option<string>, o: Outcome): (r: Response)
    ensures m == "OPTIONS" ==> r == Response(204, NoBody)
    ensures r.status == 204 <==> m == "OPTIONS" || (Dispatch(m, Segments(path), body, date).Delete? && o.Returned?)
    ensures !Dispatch(m, Segments(path), body, date).Unlink? ==> r == HandleAsWritten(m, path, body, date, o)
  {
    FixOnlyChangesUnlink(m, Segments(path), body, date);
    if m == "OPTIONS" then Response(204, NoBody)
    else Respond(Dispatch(m, Segments(path), body, date), o)
  }

  /** The service's own errors are `InvalidArgumentException`s. */
  function ServiceError(e: Error): Outcome {
    InvalidArgument(Message(e))
  }

  // ---------------------------------------------------------------------------
  // Properties of the dispatcher

  /** A trailing segment `"0"` is dropped like an empty one. */
  lemma {:induction false} ZeroSegmentDropped(segs: seq<string>)
    requires |segs| >= 1
    requires forall i :: 0 <= i < |segs| ==> Truthy(segs[i]) && '/' !in segs[i]
    ensures Segments("/" + Join(segs + ["0"], '/')) == segs
  {
    var j := Join(segs + ["0"], '/');
    JoinWithZero(segs);
    assert StripLeading("/" + j, '/') == j by {
      assert ("/" + j)[1..] == j;
    }
    assert StripTrailing(j, '/') == j;
    KeepTruthyDropsZero(segs);
  }

  /** The path text of `segs` followed by `"0"`: it neither starts nor ends
      with `/`, and splits back into its pieces. */
  lemma {:induction false} JoinWithZero(segs: seq<string>)
    requires |segs| >= 1
    requires forall i :: 0 <= i < |segs| ==> Truthy(segs[i]) && '/' !in segs[i]
    ensures var j := Join(segs + ["0"], '/');
            j != [] && j[0] != '/' && j[|j| - 1] == '0' && Explode(j, '/') == segs + ["0"]
  {
    var parts := segs + ["0"];
    forall i | 0 <= i < |parts|
      ensures parts[i] != [] && '/' !in parts[i]
    {
      if i < |segs| { assert parts[i] == segs[i]; }
    }
    JoinEnds(parts, '/');
    ExplodeJoin(parts, '/');
  }

  /** Filtering keeps truthy segments and drops a trailing `"0"`. */
  lemma {:induction false} KeepTruthyDropsZero(segs: seq<string>)
    requires forall i :: 0 <= i < |segs| ==> Truthy(segs[i])
    ensures KeepTruthy(segs + ["0"]) == segs
  {
    assert (segs + ["0"])[..|segs|] == segs;
  }

  /** Hence `/api/{kind}/0` is the collection route: a record whose
      identifier is `"0"` cannot be fetched, updated or deleted over HTTP. */
  lemma ZeroIdUnaddressable(kind: Kind, body: Body, date: Option<string>)
    ensures var segs := ["api", Collection(kind)];
            var path := "/" + Join(segs + ["0"], '/');
            && Segments(path) == segs
            && DispatchAsWritten("GET", segs, body, date) == List(kind)
            && Dispatch("GET", segs, body, date) == List(kind)
  {
    var segs := ["api", Collection(kind)];
    ZeroSegmentDropped(segs);
    CollectionRoutes(false, kind, body, date, true);
    CollectionRoutes(true, kind, body, date, true);
  }

  /** Any request other than a preflight whose path does not start with
      `api` gets the API descriptor. */
  lemma DescriptorOutsideApi(m: string, path: string, body: Body, date: Option<string>, o: Outcome)
    requires m != "OPTIONS"
    requires Segments(path) == [] || Segments(path)[0] != "api"
    ensures HandleAsWritten(m, path, body, date, o) == Response(200, Descriptor)
    ensures Handle(m, path, body, date, o) == Response(200, Descriptor)
  {
  }

  /** `GET /api/{kind}` lists with 200; `POST /api/{kind}` with a JSON body
      creates with 201. */
  lemma CollectionRoutes(fixUnlink: bool, kind: Kind, body: Body, date: Option<string>, found: bool)
    ensures var segs := ["api", Collection(kind)];
            && Route(fixUnlink, "GET", segs, body, date) == List(kind)
            && Respond(List(kind), Returned(found)) == Response(200, Data)
            && (body.Json? ==> Route(fixUnlink, "POST", segs, body, date) == Create(kind))
            && Respond(Create(kind), Returned(found)) == Response(201, Data)
  {
  }

  /** `GET /api/{kind}/{id}` answers 404 when the getter returns null and 200
      otherwise; `DELETE /api/{kind}/{id}` answers 204 without a body. */
  lemma ItemRoutes(fixUnlink: bool, kind: Kind, id: string, body: Body, date: Option<string>)
    ensures var segs := ["api", Collection(kind), id];
            && Route(fixUnlink, "GET", segs, body, date) == Fetch(kind, id)
            && Respond(Fetch(kind, id), Returned(false)) == Response(404, ErrorBody(MissingMessage(kind)))
            && Respond(Fetch(kind, id), Returned(true)) == Response(200, Data)
            && Route(fixUnlink, "DELETE", segs, body, date) == Delete(kind, id)
            && Respond(Delete(kind, id), Returned(true)) == Response(204, NoBody)
  {
  }

  /** `PUT /api/{kind}/{id}` with a JSON body updates the record and answers
      200 with it, whatever follows the id. */
  lemma UpdateRoute(fixUnlink: bool, kind: Kind, id: string, rest: seq<string>, pntId: Option<string>, tiempoId: Option<string>, date: Option<string>, found: bool)
    ensures Route(fixUnlink, "PUT", ["api", Collection(kind), id] + rest, Json(pntId, tiempoId), date) == Update(kind, id)
    ensures Respond(Update(kind, id), Returned(found)) == Response(200, Data)
  {
    var segs := ["api", Collection(kind), id] + rest;
    assert segs[0] == "api" && segs[1] == Collection(kind) && segs[2] == id;
  }

  /** A POST to `/api/tiempos/{id}/pnts` with a `pnt_id`, or to
      `/api/carpetas/{id}/tiempos` with a `tiempo_id`, links that child and
      answers 200 with the container. */
  lemma LinkRoutes(fixUnlink: bool, id: string, child: string, other: Option<string>, date: Option<string>, found: bool)
    ensures Route(fixUnlink, "POST", ["api", "tiempos", id, "pnts"], Json(Some(child), other), date) == Link(TiempoKind, id, child)
    ensures Route(fixUnlink, "POST", ["api", "carpetas", id, "tiempos"], Json(other, Some(child)), date) == Link(CarpetaKind, id, child)
    ensures Respond(Link(TiempoKind, id, child), Returned(found)) == Response(200, Data)
    ensures Respond(Link(CarpetaKind, id, child), Returned(found)) == Response(200, Data)
  {
  }

  /** `GET /api/report/resumen` computes the summary and `GET
      /api/report/agenda` with a `date` the agenda of that date, both
      answering 200. */
  lemma ReportRoutes(fixUnlink: bool, rest: seq<string>, body: Body, date: Option<string>, day: string, found: bool)
    ensures Route(fixUnlink, "GET", ["api", "report", "resumen"] + rest, body, date) == Resumen
    ensures Route(fixUnlink, "GET", ["api", "report", "agenda"] + rest, body, Some(day)) == Agenda(day)
    ensures Respond(Resumen, Returned(found)) == Response(200, Data)
    ensures Respond(Agenda(day), Returned(found)) == Response(200, Data)
  {
    var segs, segs' := ["api", "report", "resumen"] + rest, ["api", "report", "agenda"] + rest;
    assert segs[0] == "api" && segs[1] == "report" && segs[2] == "resumen";
    assert segs'[0] == "api" && segs'[1] == "report" && segs'[2] == "agenda";
  }

  /** As written, every DELETE with an id segment deletes the entity, whatever
      follows the id: `DELETE /api/tiempos/{id}/pnts/{pntId}` deletes the
      tiempo, and likewise for carpetas. */
  lemma DeleteShadowsUnlinkAsWritten(kind: Kind, segs: seq<string>, body: Body, date: Option<string>)
    requires |segs| >= 3 && segs[0] == "api" && segs[1] == Collection(kind)
    ensures DispatchAsWritten("DELETE", segs, body, date) == Delete(kind, segs[2])
  {
  }

  /** Hence, as written, no request reaches an unlink. */
  lemma UnlinkUnreachableAsWritten(m: string, segs: seq<string>, body: Body, date: Option<string>)
    ensures !DispatchAsWritten(m, segs, body, date).Unlink?
  {
  }

  /** With the unlink paths taken out of the entity DELETE, they reach
      `removePntFromTiempo` and `removeTiempoFromCarpeta`. */
  lemma UnlinkRoutedWhenFixed(id: string, child: string, body: Body, date: Option<string>)
    ensures Dispatch("DELETE", ["api", "tiempos", id, "pnts", child], body, date) == Unlink(TiempoKind, id, child)
    ensures Dispatch("DELETE", ["api", "carpetas", id, "tiempos", child], body, date) == Unlink(CarpetaKind, id, child)
  {
  }

  /** The correction changes nothing but the unlink requests: every other
      request is routed as written. */
  lemma FixOnlyChangesUnlink(m: string, segs: seq<string>, body: Body, date: Option<string>)
    ensures Dispatch(m, segs, body, date) != DispatchAsWritten(m, segs, body, date)
            <==> Dispatch(m, segs, body, date).Unlink?
  {
  }

  /** A POST to `/api/tiempos/{id}/pnts` whose body lacks `pnt_id` is
      rejected with 400 before the service is called. */
  lemma LinkPntWithoutIdRejected(fixUnlink: bool, id: string, tiempoId: Option<string>, date: Option<string>, o: Outcome)
    ensures var a := Route(fixUnlink, "POST", ["api", "tiempos", id, "pnts"], Json(None, tiempoId), date);
            a == Reject("Se requiere pnt_id") && Respond(a, o) == Response(400, ErrorBody("Se requiere pnt_id"))
  {
    var segs, body := ["api", "tiempos", id, "pnts"], Json(None, tiempoId);
    assert Route(fixUnlink, "POST", segs, body, date) == EntityRoute(fixUnlink, TiempoKind, "POST", segs, body);
    assert "Se requiere " + "pnt_id" == "Se requiere pnt_id";
  }

  /** A POST to `/api/carpetas/{id}/tiempos` whose body lacks `tiempo_id` is
      rejected with 400 before the service is called. */
  lemma LinkTiempoWithoutIdRejected(fixUnlink: bool, id: string, pntId: Option<string>, date: Option<string>, o: Outcome)
    ensures var a := Route(fixUnlink, "POST", ["api", "carpetas", id, "tiempos"], Json(pntId, None), date);
            a == Reject("Se requiere tiempo_id") && Respond(a, o) == Response(400, ErrorBody("Se requiere tiempo_id"))
  {
    var segs, body := ["api", "carpetas", id, "tiempos"], Json(pntId, None);
    assert Route(fixUnlink, "POST", segs, body, date) == EntityRoute(fixUnlink, CarpetaKind, "POST", segs, body);
    assert "Se requiere " + "tiempo_id" == "Se requiere tiempo_id";
  }

  /** An agenda request without `date` is rejected with 400. */
  lemma AgendaWithoutDateRejected(fixUnlink: bool, rest: seq<string>, body: Body, o: Outcome)
    ensures var a := Route(fixUnlink, "GET", ["api", "report", "agenda"] + rest, body, None);
            a == Reject("Par\U{00E1}metro date obligatorio") && Respond(a, o).status == 400
  {
  }

  /** A route that reads the body rejects a malformed one with 400 and the
      decoder's message. */
  lemma MalformedBodyRejected(fixUnlink: bool, kind: Kind, id: string, reason: string, date: Option<string>, o: Outcome)
    ensures var a := Route(fixUnlink, "POST", ["api", Collection(kind)], Malformed(reason), date);
            a == Reject(JsonMessage(reason)) && Respond(a, o) == Response(400, ErrorBody(JsonMessage(reason)))
    ensures var a := Route(fixUnlink, "PUT", ["api", Collection(kind), id], Malformed(reason), date);
            a == Reject(JsonMessage(reason)) && Respond(a, o) == Response(400, ErrorBody(JsonMessage(reason)))
  {
  }

  /** Methods other than GET, POST, PUT and DELETE match no API route
      (`OPTIONS` never reaches the chain: see `Handle`). */
  lemma OtherMethodsNoRoute(fixUnlink: bool, m: string, segs: seq<string>, body: Body, date: Option<string>)
    requires m != "GET" && m != "POST" && m != "PUT" && m != "DELETE"
    requires |segs| > 0 && segs[0] == "api"
    ensures Route(fixUnlink, m, segs, body, date) == NoRoute
    ensures Respond(NoRoute, Returned(true)) == Response(404, ErrorBody("Ruta no encontrada"))
  {
  }

  /** The `catch` arms: once a service call is made, an
      `InvalidArgumentException` answers 400 with its message, a
      `RuntimeException` 500 with its message, anything else 500 with the
      generic body. */
  lemma ExceptionStatuses(a: Action, message: string, e: Error)
    requires a != ApiInfo && a != NoRoute && !a.Reject?
    ensures Respond(a, ServiceError(e)) == Response(400, ErrorBody(Message(e)))
    ensures Respond(a, InvalidArgument(message)) == Response(400, ErrorBody(message))
    ensures Respond(a, RuntimeFailure(message)) == Response(500, ErrorBody(message))
    ensures Respond(a, OtherFailure(message)) == Response(500, Unexpected(message))
  {
  }
}
