# FutbolFolder CMS — a verified model of the back end

FutbolFolder is a small content-management API for football broadcasts. It
keeps three tables:

- **PNTs** are sponsor reads. Each has a title, a script, a duration in seconds, a format, a brand and notes.
- **Tiempos** are broadcast segments. Each has a name, a base duration and an ordered list of PNT ids.
- **Carpetas** are match folders. Each has a name, a broadcast date, an ordered list of tiempo ids and remarks.

Two files hold its core:

- `CmsService` owns the three tables. It creates, updates and deletes records, links and unlinks them, and writes everything back after each change. It also computes two reports: a duration summary and an agenda by date.
- `index.php` splits the request path into segments and routes method plus path to one service call. It turns the outcome into an HTTP status and body.

The model is split into these Dafny modules:

- `Text`: PHP's `trim`, `substr`, `array_unique`, removal of an id with `array_filter` + `array_values`, append-if-absent, and "first id without a record".
- `Tables`: a PHP ordered array keyed by string. It is an insertion-ordered key list plus a map. Assigning to an existing key keeps its position; a new key is appended.
- `Model`:
  - the records, the update payloads (each field present or absent) and the service's error messages;
  - `ensureIdentifier`, the field merge of the updates and `parseDate`;
  - the store invariant `Valid`: every record is filed under its own identifier, required text is present and trimmed, and every id list is free of duplicates and dangling ids.
- `Integrity`: each state change of the service as a function of the store, with lemmas. The lemmas prove that each change keeps `Valid` and relate the changes to each other: link then unlink, idempotence, and order kept.
- `Outcomes`: what each create and update decides before it writes, as a function of the store and the payload. The result is the exception the service throws, in its check order, or the record it stores. Lemmas prove that storing that record keeps `Valid`.
- `Reports`: the summary and the agenda as functions of the store, with their properties.
- `Service`: the class `CmsService`. Its field `state` is the store and its methods change it in place. Each method states its full result and its new state in terms of the `Outcomes` and `Integrity` functions. The delete methods and the reports keep the source's loops, with invariants.
- `Router`: path segmentation, the dispatch chain and the status mapping.

## Model

| member | source | states |
|---|---|---|
| Text.Trim | backend/lib/CmsService.php:49-54 | The result has no leading or trailing PHP blank; a trimmed input is returned unchanged; the result is empty exactly when every character is blank |
| Text.TrimContent | backend/lib/CmsService.php:49-54 | Only blanks are removed: the result is a piece of the input, and every character before and after that piece is blank |
| Text.TrimIdempotent | backend/lib/CmsService.php:74-79 | Trimming twice equals trimming once, so re-trimming a stored field changes nothing |
| Text.Prefix | backend/lib/CmsService.php:417 | `substr(s, 0, n)`: a prefix of `s` of length `min(|s|, n)` |
| Text.Dedup | backend/lib/CmsService.php:130 | `array_values(array_unique(..))`: no duplicates, the same elements, no longer than the input, and an input without duplicates is returned as is |
| Text.DedupSnoc | backend/lib/CmsService.php:130 | `array_unique` keeps first occurrences in their order: an element added at the end is kept there when it is new and dropped when it is already listed |
| Text.Without | backend/lib/CmsService.php:100-103 | The filtered list lacks the id, keeps every other element, is unchanged when the id is absent, and stays duplicate-free |
| Text.WithoutAppend | backend/lib/CmsService.php:217-220 | Filtering a concatenation filters each part |
| Text.WithoutRemovesOne | backend/lib/CmsService.php:217-220 | In a duplicate-free list, removing the element at position i leaves the others in their order |
| Text.AddOnce | backend/lib/CmsService.php:200-202 | Appends the id only when it is not listed yet; duplicate-freedom is preserved |
| Text.AddOnceIdempotent | backend/lib/CmsService.php:200-202 | Adding an id twice equals adding it once |
| Text.FirstMissing | backend/lib/CmsService.php:425-441 | None exactly when every id has a record; otherwise a listed id without a record, the first one `validatePntIds` / `validateTiempoIds` throws for |
| Text.FirstMissingSnoc | backend/lib/CmsService.php:425-441 | One more id at the end keeps the first missing id when there was one, and otherwise makes the new id the first missing one exactly when it has no record |
| Text.FirstMissingDedup | backend/lib/CmsService.php:130-137 | Validating the de-duplicated list reports the same first missing id as the list as supplied |
| Tables.Put | backend/lib/CmsService.php:61 | `$table[$k] = $v`: the map gains k ↦ v; an existing key keeps its place in the order, a new key goes last |
| Tables.Remove | backend/lib/CmsService.php:97 | `unset`: the key leaves the map and the order, the other keys keep theirs |
| Tables.Get | backend/lib/CmsService.php:35-38 | `$table[$k] ?? null`: present exactly when the key is, with its record |
| Tables.Values | backend/lib/CmsService.php:30-33 | `array_values`: the records in insertion order |
| Tables.PutSame | backend/lib/CmsService.php:204 | Writing a record back unchanged leaves the table as it was |
| Model.EnsureIdentifier | backend/lib/CmsService.php:21-28 | A supplied identifier that is not blank is used untrimmed; an absent or blank one is replaced by the generated id |
| Model.Merge | backend/lib/CmsService.php:74 | `trim($payload[f] ?? $record[f])`: a supplied value is trimmed, an absent one is the stored value trimmed (so an already trimmed stored value is kept as is); the result is always trimmed |
| Model.ParseDate | backend/lib/CmsService.php:411-423 | Absent or blank input gives the "fecha obligatoria" error, and only that input does; the call succeeds exactly when the input is non-blank and `dates` accepts the first ten characters of the trimmed input, with that normalised date; every other input gives the format error |
| Model.Message | backend/lib/CmsService.php:425-441 | Every error has a non-empty message; an unknown-reference message ends with the missing id followed by " no existe." |
| Model.NewPnt | backend/lib/CmsService.php:47-55 | The created PNT carries the chosen identifier; each text field is the trimmed supplied value, or empty when absent; the duration is the supplied one, or 0 when absent |
| Model.MergedPnt | backend/lib/CmsService.php:73-79 | The updated PNT keeps its identifier; a supplied text field is replaced by its trimmed value and an absent one becomes the stored value trimmed; a supplied duration replaces the stored one and an absent one keeps it |
| Model.NewIsMergedBlank | backend/lib/CmsService.php:47-79 | Creating a PNT is merging the payload over a blank record under the chosen identifier |
| Integrity.StorePnt | backend/lib/CmsService.php:61 | Only the PNT table changes, by one assignment |
| Integrity.StoreTiempo | backend/lib/CmsService.php:139 | Only the tiempo table changes, by one assignment |
| Integrity.StoreCarpeta | backend/lib/CmsService.php:261 | Only the carpeta table changes, by one assignment |
| Integrity.StorePntValid | backend/lib/CmsService.php:57-61 | Storing a PNT with present, trimmed title and script under its own id keeps the store valid |
| Integrity.StoreTiempoValid | backend/lib/CmsService.php:130-139 | Storing a named tiempo whose PNT list is duplicate-free and refers to stored PNTs keeps the store valid |
| Integrity.StoreCarpetaValid | backend/lib/CmsService.php:251-261 | Storing a named carpeta whose tiempo list is duplicate-free and refers to stored tiempos keeps the store valid |
| Integrity.LinkPnt | backend/lib/CmsService.php:200-204 | When the PNT is already listed the store is unchanged; otherwise it is appended to the end of that tiempo's list; every other field of that tiempo, every other tiempo, the PNT and carpeta tables and all key orders are unchanged |
| Integrity.UnlinkPnt | backend/lib/CmsService.php:217-222 | The tiempo's list becomes the old list with every occurrence of the PNT filtered out, the rest in order; every other field of that tiempo, every other tiempo, the PNT and carpeta tables and all key orders are unchanged |
| Integrity.LinkTiempo | backend/lib/CmsService.php:319-323 | When the tiempo is already listed the store is unchanged; otherwise it is appended to the end of that carpeta's list; every other field of that carpeta, every other carpeta, the PNT and tiempo tables and all key orders are unchanged |
| Integrity.UnlinkTiempo | backend/lib/CmsService.php:336-341 | The carpeta's list becomes the old list with every occurrence of the tiempo filtered out, the rest in order; every other field of that carpeta, every other carpeta, the PNT and tiempo tables and all key orders are unchanged |
| Integrity.LinkPntValid | backend/lib/CmsService.php:189-208 | Linking an existing PNT to an existing tiempo keeps the store valid |
| Integrity.LinkTiempoValid | backend/lib/CmsService.php:308-327 | Linking an existing tiempo to an existing carpeta keeps the store valid |
| Integrity.UnlinkPntValid | backend/lib/CmsService.php:210-226 | Unlinking keeps the store valid |
| Integrity.UnlinkTiempoValid | backend/lib/CmsService.php:329-345 | Unlinking keeps the store valid |
| Integrity.LinkPntIdempotent | backend/lib/CmsService.php:200-202 | Linking the same PNT twice equals linking it once |
| Integrity.LinkTiempoIdempotent | backend/lib/CmsService.php:319-321 | Linking the same tiempo twice equals linking it once |
| Integrity.UnlinkPntAbsentNoop | backend/lib/CmsService.php:217-222 | Unlinking a PNT that is not listed leaves the store unchanged |
| Integrity.UnlinkTiempoAbsentNoop | backend/lib/CmsService.php:336-341 | Unlinking a tiempo that is not listed leaves the store unchanged |
| Integrity.UnlinkPntKeepsOrder | backend/lib/CmsService.php:217-220 | Unlinking the i-th PNT of a duplicate-free list leaves the others in order |
| Integrity.UnlinkTiempoKeepsOrder | backend/lib/CmsService.php:336-339 | Unlinking the i-th tiempo of a duplicate-free list leaves the others in order |
| Integrity.UnlinkUndoesLinkPnt | backend/lib/CmsService.php:189-226 | Unlinking a PNT just linked (and not listed before) restores the store exactly |
| Integrity.UnlinkUndoesLinkTiempo | backend/lib/CmsService.php:308-345 | Unlinking a tiempo just linked (and not listed before) restores the store exactly |
| Integrity.StripPnt | backend/lib/CmsService.php:99-104 | After the cascade every tiempo is the stored one with the PNT filtered out of its list and nothing else changed, so no tiempo lists the PNT; the tiempo keys and their order stay |
| Integrity.StripTiempo | backend/lib/CmsService.php:179-184 | After the cascade every carpeta is the stored one with the tiempo filtered out of its list and nothing else changed, so no carpeta lists the tiempo; the carpeta keys and their order stay |
| Integrity.StripPntUpTo | backend/lib/CmsService.php:99-104 | The cascade after its first n iterations keeps the tiempo keys |
| Integrity.StripPntStep | backend/lib/CmsService.php:99-104 | One iteration filters the id out of the next tiempo's list |
| Integrity.StripPntEnds | backend/lib/CmsService.php:99-104 | The loop starts from the stored tiempos and ends at the full cascade |
| Integrity.StripTiempoUpTo | backend/lib/CmsService.php:179-184 | The cascade after its first n iterations keeps the carpeta keys |
| Integrity.StripTiempoStep | backend/lib/CmsService.php:179-184 | One iteration filters the id out of the next carpeta's list |
| Integrity.StripTiempoEnds | backend/lib/CmsService.php:179-184 | The loop starts from the stored carpetas and ends at the full cascade |
| Integrity.DropPnt | backend/lib/CmsService.php:91-107 | The PNT table loses exactly that record and that key, the other keys keeping their order; the tiempos become the `StripPnt` cascade; carpetas are untouched |
| Integrity.DropTiempo | backend/lib/CmsService.php:171-187 | The tiempo table loses exactly that record and that key, the other keys keeping their order; the carpetas become the `StripTiempo` cascade; PNTs are untouched |
| Integrity.DropCarpeta | backend/lib/CmsService.php:298-306 | The carpeta table loses exactly that record and that key, the other keys keeping their order; PNTs and tiempos are untouched |
| Integrity.DropPntValid | backend/lib/CmsService.php:91-107 | Deleting a PNT with its cascade keeps the store valid: no tiempo is left with a dangling PNT id |
| Integrity.DropTiempoValid | backend/lib/CmsService.php:171-187 | Deleting a tiempo with its cascade keeps the store valid: no carpeta is left with a dangling tiempo id |
| Integrity.DropCarpetaValid | backend/lib/CmsService.php:298-306 | Deleting a carpeta keeps the store valid |
| Integrity.DropPntKeepsOrder | backend/lib/CmsService.php:99-104 | In every tiempo that listed the PNT, the other PNTs stay in their order |
| Integrity.DropTiempoKeepsOrder | backend/lib/CmsService.php:179-184 | In every carpeta that listed the tiempo, the other tiempos stay in their order |
| Outcomes.PntCreation | backend/lib/CmsService.php:40-65 | The identifier is the supplied non-blank one or the generated one. A taken identifier is exactly the duplicate error. With a free identifier, a title or script that is empty after trimming is exactly the required-field error, and otherwise the call succeeds. A success is `NewPnt` of the payload, a well-formed PNT under that fresh identifier |
| Outcomes.PntUpdate | backend/lib/CmsService.php:67-89 | An unknown id is exactly the not-found error. For a stored id, the required-field error arises exactly when the merged PNT has an empty title or script, and otherwise the call succeeds with the stored PNT merged with the payload (`MergedPnt`) |
| Outcomes.TiempoCreation | backend/lib/CmsService.php:119-143 | A taken identifier is exactly the duplicate error. With a free identifier, an empty trimmed name is exactly the required-field error; with a name, a listed PNT without a record is exactly the unknown-reference error, naming such a PNT; otherwise the call succeeds. A success has the fresh identifier, the trimmed name, the supplied base duration (0 when absent) and the de-duplicated PNT list, and is well formed. The unknown-reference error names the first id of the list as supplied that has no record, as `validatePntIds` / `validateTiempoIds` report it |
| Outcomes.TiempoUpdate | backend/lib/CmsService.php:145-169 | An unknown id is exactly the not-found error. For a stored id, a supplied list with a PNT without a record is exactly the unknown-reference error (naming such a PNT); otherwise an empty merged name is exactly the required-field error, and otherwise the call succeeds. A success keeps the identifier, takes the merged name and duration, and takes the de-duplicated supplied list or keeps the stored one. The unknown-reference error names the first id of the list as supplied that has no record, as `validatePntIds` / `validateTiempoIds` report it |
| Outcomes.CarpetaCreation | backend/lib/CmsService.php:238-265 | A taken identifier is exactly the duplicate error. With a free identifier, a date that `parseDate` rejects is exactly that date's error; then an empty trimmed name is exactly the required-field error; then a listed tiempo without a record is exactly the unknown-reference error, naming such a tiempo; otherwise the call succeeds. A success has the fresh identifier, the trimmed name, the normalised date, the de-duplicated tiempo list and the trimmed remarks, and is well formed. The unknown-reference error names the first id of the list as supplied that has no record, as `validatePntIds` / `validateTiempoIds` report it |
| Outcomes.CarpetaUpdate | backend/lib/CmsService.php:267-296 | An unknown id is exactly the not-found error. For a stored id the checks come in source order, each an if-and-only-if: a supplied date that does not parse gives its date error; then a supplied list with a tiempo without a record gives the unknown-reference error (naming such a tiempo); then an empty merged name gives the required-field error; otherwise the call succeeds. A success keeps the identifier, takes the merged name and remarks, the supplied date (normalised) or the stored one, and the de-duplicated supplied list or the stored one. The unknown-reference error names the first id of the list as supplied that has no record, as `validatePntIds` / `validateTiempoIds` report it |
| Outcomes.PntUpdateOk | backend/lib/CmsService.php:67-89 | Updating a well-formed PNT gives a well-formed PNT, and every field absent from the payload keeps its stored value |
| Outcomes.TiempoUpdateOk | backend/lib/CmsService.php:145-169 | Updating a well-formed tiempo gives a well-formed tiempo, and every field absent from the payload keeps its stored value |
| Outcomes.CarpetaUpdateOk | backend/lib/CmsService.php:267-296 | Updating a well-formed carpeta gives a well-formed carpeta, and every field absent from the payload keeps its stored value |
| Outcomes.PntCreationValid | backend/lib/CmsService.php:40-65 | Storing a successfully created PNT keeps a valid store valid |
| Outcomes.PntUpdateValid | backend/lib/CmsService.php:67-89 | Storing a successfully updated PNT keeps a valid store valid, and absent fields keep their values |
| Outcomes.TiempoCreationValid | backend/lib/CmsService.php:119-143 | Storing a successfully created tiempo keeps a valid store valid |
| Outcomes.TiempoUpdateValid | backend/lib/CmsService.php:145-169 | Storing a successfully updated tiempo keeps a valid store valid, and absent fields keep their values |
| Outcomes.CarpetaCreationValid | backend/lib/CmsService.php:238-265 | Storing a successfully created carpeta keeps a valid store valid |
| Outcomes.CarpetaUpdateValid | backend/lib/CmsService.php:267-296 | Storing a successfully updated carpeta keeps a valid store valid, and absent fields keep their values |
| Reports.Resolve | backend/lib/CmsService.php:353-366 | Ids without a record are skipped; when all ids have records the result is their records, position by position |
| Reports.ResolveOne | backend/lib/CmsService.php:360-366 | A single id resolves to its record when it is stored and to nothing when it is not; with `ResolveAppend` this fixes the result of every list, dangling ids included |
| Reports.ResolveAppend | backend/lib/CmsService.php:360-366 | Resolving a concatenation resolves each part |
| Reports.SegundosAppend | backend/lib/CmsService.php:364 | The sum of PNT durations is additive over concatenation |
| Reports.TiempoReports | backend/lib/CmsService.php:353-374 | One summary entry per listed tiempo that exists |
| Reports.TiempoReportsSnoc | backend/lib/CmsService.php:353-374 | One more listed tiempo adds at most its own entry at the end |
| Reports.Resumen | backend/lib/CmsService.php:347-384 | One entry per carpeta, in table order, each the carpeta's summary |
| Reports.ResumenComplete | backend/lib/CmsService.php:347-384 | In a valid store nothing is skipped: every listed tiempo and every listed PNT appears, in list order |
| Reports.LinkPntAddsDuration | backend/lib/CmsService.php:189-208 | Linking an unlisted PNT raises the tiempo's computed total by exactly its duration |
| Reports.UnlinkPntRemovesDuration | backend/lib/CmsService.php:210-226 | Unlinking a listed PNT lowers the tiempo's computed total by exactly its duration |
| Reports.ResumenExample | backend/lib/CmsService.php:358-378 | A tiempo of base 30 holding a 20-second PNT reports 50, and so does its carpeta |
| Reports.MatchingSound | backend/lib/CmsService.php:391-406 | Every agenda entry is a stored carpeta of the target date with its existing tiempos |
| Reports.MatchingComplete | backend/lib/CmsService.php:391-406 | Every stored carpeta of the target date has an entry |
| Reports.Dates | backend/lib/CmsService.php:391-395 | The broadcast dates of the carpetas named by the keys, position by position |
| Reports.Positions | backend/lib/CmsService.php:391-395 | The matching positions lie within the list |
| Reports.PositionsSound | backend/lib/CmsService.php:391-395 | Every listed position holds the target date |
| Reports.PositionsIncreasing | backend/lib/CmsService.php:391-406 | The positions are listed in ascending order, so no carpeta is listed twice |
| Reports.PositionsComplete | backend/lib/CmsService.php:391-395 | Every position that holds the target date is listed |
| Reports.MatchingAtPositions | backend/lib/CmsService.php:391-406 | Entry i of the agenda is the carpeta at the i-th matching position of the table order, with its existing tiempos |
| Reports.AgendaExact | backend/lib/CmsService.php:386-409 | The agenda holds exactly the carpetas of the target date, each with its existing tiempos; its entries are the carpetas at the matching positions of the table order, one entry per carpeta, in that order |
| Service.CmsService.constructor | backend/lib/CmsService.php:10-14 | The service starts from the loaded store, with no write yet |
| Service.CmsService.Persist | backend/lib/CmsService.php:16-19 | One more write of an unchanged store |
| Service.CmsService.ListPnts | backend/lib/CmsService.php:30-33 | Every PNT, in table order |
| Service.CmsService.GetPnt | backend/lib/CmsService.php:35-38 | The PNT when present, otherwise none |
| Service.CmsService.ListTiempos | backend/lib/CmsService.php:109-112 | Every tiempo, in table order |
| Service.CmsService.GetTiempo | backend/lib/CmsService.php:114-117 | The tiempo when present, otherwise none |
| Service.CmsService.ListCarpetas | backend/lib/CmsService.php:228-231 | Every carpeta, in table order |
| Service.CmsService.GetCarpeta | backend/lib/CmsService.php:233-236 | The carpeta when present, otherwise none |
| Service.CmsService.CreatePnt | backend/lib/CmsService.php:40-65 | The result is `PntCreation` of the old state; an error leaves the state and the write count alone; a success stores the new PNT last with one write; a valid store stays valid |
| Service.CmsService.UpdatePnt | backend/lib/CmsService.php:67-89 | The result is `PntUpdate` of the old state; an error leaves the state alone; a success stores the merged PNT in place with one write; in a valid store absent fields keep their values and validity is kept |
| Service.CmsService.DeletePnt | backend/lib/CmsService.php:91-107 | Unknown id is an error; otherwise the state becomes `DropPnt` of the old one with one write, and validity is kept |
| Service.CmsService.CreateTiempo | backend/lib/CmsService.php:119-143 | The result is `TiempoCreation` of the old state; an error leaves the state alone; a success stores the tiempo last with one write; a valid store stays valid |
| Service.CmsService.UpdateTiempo | backend/lib/CmsService.php:145-169 | The result is `TiempoUpdate` of the old state; an error leaves the state alone; a success stores the tiempo in place with one write; in a valid store absent fields keep their values and validity is kept |
| Service.CmsService.DeleteTiempo | backend/lib/CmsService.php:171-187 | Unknown id is an error; otherwise the state becomes `DropTiempo` of the old one with one write, and validity is kept |
| Service.CmsService.AddPntToTiempo | backend/lib/CmsService.php:189-208 | Unknown tiempo, then unknown PNT, are errors; otherwise the state becomes `LinkPnt` of the old one and the updated tiempo is returned |
| Service.CmsService.RemovePntFromTiempo | backend/lib/CmsService.php:210-226 | Unknown tiempo is an error; otherwise the state becomes `UnlinkPnt` of the old one and the updated tiempo is returned |
| Service.CmsService.CreateCarpeta | backend/lib/CmsService.php:238-265 | The result is `CarpetaCreation` of the old state; an error leaves the state alone; a success stores the carpeta last with one write; a valid store stays valid |
| Service.CmsService.UpdateCarpeta | backend/lib/CmsService.php:267-296 | The result is `CarpetaUpdate` of the old state; an error leaves the state alone; a success stores the carpeta in place with one write; in a valid store absent fields keep their values and validity is kept |
| Service.CmsService.DeleteCarpeta | backend/lib/CmsService.php:298-306 | Unknown id is an error; otherwise the state becomes `DropCarpeta` of the old one with one write |
| Service.CmsService.AddTiempoToCarpeta | backend/lib/CmsService.php:308-327 | Unknown carpeta, then unknown tiempo, are errors; otherwise the state becomes `LinkTiempo` of the old one |
| Service.CmsService.RemoveTiempoFromCarpeta | backend/lib/CmsService.php:329-345 | Unknown carpeta is an error; otherwise the state becomes `UnlinkTiempo` of the old one |
| Service.CmsService.ResumenGeneral | backend/lib/CmsService.php:347-384 | The loop's result is the specified summary `Resumen` of the store |
| Service.CmsService.ResumenCarpeta | backend/lib/CmsService.php:350-381 | The inner loop's result is the specified summary of one carpeta |
| Service.CmsService.ResumenTiempo | backend/lib/CmsService.php:358-373 | The innermost loop's result is the specified summary of one tiempo |
| Service.CmsService.AgendaPorFecha | backend/lib/CmsService.php:386-409 | A date error when the date does not parse; otherwise the specified `Agenda` for the normalised date |
| Router.Explode | backend/index.php:22 | `explode`: at least one piece, no piece contains the delimiter, and joining the pieces gives back the input |
| Router.ExplodeJoin | backend/index.php:22 | Exploding a join of delimiter-free pieces gives back the pieces |
| Router.StripLeading | backend/index.php:22 | The left half of `trim($path, '/')`: a suffix that does not start with '/', and everything removed before it is '/' |
| Router.StripTrailing | backend/index.php:22 | The right half of `trim($path, '/')`: a prefix that does not end with '/', and everything removed after it is '/' |
| Router.KeepTruthy | backend/index.php:22 | `array_values(array_filter(..))`: a string is in the result exactly when it is in the input and truthy; an all-truthy input is returned unchanged |
| Router.KeepTruthySnoc | backend/index.php:22 | Filtering keeps the order: a piece added at the end is kept at the end exactly when it is truthy |
| Router.Segments | backend/index.php:22 | Every segment is truthy (not "" or "0") and has no '/' |
| Router.SegmentsOfJoin | backend/index.php:22 | A path made of '/' and truthy, slash-free segments yields exactly those segments |
| Router.ZeroSegmentDropped | backend/index.php:22 | A trailing "0" segment is discarded |
| Router.ZeroIdUnaddressable | backend/index.php:22 | `GET /api/{kind}/0` lists the collection, as written and corrected, so a record with identifier "0" cannot be addressed |
| Router.Route | backend/index.php:47-238 | The descriptor is answered exactly for paths that do not start with `api` |
| Router.Respond | backend/index.php:238-245 | Status is one of 200/201/204/400/404/500; 204 exactly for a successful delete and only without a body; 201 exactly for a successful create; 400 exactly for a pre-service rejection or an `InvalidArgumentException` |
| Router.OnReturn | backend/index.php:68-230 | A returning call answers 404 exactly for an item GET whose getter returned null, with the kind's message; 201 exactly for a create; 204 exactly for a delete; otherwise 200; every non-404 answer carries the data or no body |
| Router.HandleAsWritten | backend/index.php:16-245 | The request as written: `OPTIONS` answers 204 without a body before routing; otherwise 204 exactly for a delete whose call returned; a DELETE on `/api/tiempos/{id}/pnts/{x}` or `/api/carpetas/{id}/tiempos/{x}` gets the response of deleting the container |
| Router.Handle | backend/index.php:16-245 | The request with the corrected chain: `OPTIONS` answers 204; 204 exactly for a delete whose call returned; every request not routed to an unlink gets the same response as written |
| Router.DescriptorOutsideApi | backend/index.php:48-61 | Any request other than `OPTIONS` whose path does not start with `api` answers 200 with the descriptor, as written and corrected |
| Router.CollectionRoutes | backend/index.php:68-77 | `GET /api/{kind}` lists with 200, `POST /api/{kind}` creates with 201 |
| Router.ItemRoutes | backend/index.php:79-102 | `GET /api/{kind}/{id}` answers 404 with the kind's message when absent and 200 when present; `DELETE` answers 204 without a body |
| Router.UpdateRoute | backend/index.php:92-96 | `PUT /api/{kind}/{id}` with a JSON body updates that record and answers 200 with it, whatever segments follow the id |
| Router.LinkRoutes | backend/index.php:143-152 | A POST to `/api/tiempos/{id}/pnts` with a `pnt_id`, or to `/api/carpetas/{id}/tiempos` with a `tiempo_id`, links that child and answers 200 |
| Router.ReportRoutes | backend/index.php:217-231 | `GET /api/report/resumen` computes the summary and `GET /api/report/agenda` with a `date` the agenda of that date, both answering 200 |
| Router.DeleteShadowsUnlinkAsWritten | backend/index.php:137-213 | As written, any DELETE with an id segment deletes the entity, whatever follows the id |
| Router.UnlinkUnreachableAsWritten | backend/index.php:137-213 | As written, no request is routed to an unlink |
| Router.UnlinkRoutedWhenFixed | backend/index.php:137-213 | In the corrected chain, DELETE on the sub-resource paths reaches the unlink calls |
| Router.FixOnlyChangesUnlink | backend/index.php:137-213 | The corrected chain differs from the written one exactly on the requests it routes to an unlink |
| Router.LinkPntWithoutIdRejected | backend/index.php:143-152 | A POST to `/api/tiempos/{id}/pnts` without `pnt_id` answers 400 with "Se requiere pnt_id" before the service is called |
| Router.LinkTiempoWithoutIdRejected | backend/index.php:199-208 | A POST to `/api/carpetas/{id}/tiempos` without `tiempo_id` answers 400 with "Se requiere tiempo_id" before the service is called |
| Router.AgendaWithoutDateRejected | backend/index.php:225-229 | `GET /api/report/agenda` without `date` answers 400 |
| Router.MalformedBodyRejected | backend/index.php:24-37 | A create or update with a body that is not JSON answers 400 with "JSON inválido: " and the decoder's message |
| Router.OtherMethodsNoRoute | backend/index.php:63-238 | Methods other than GET/POST/PUT/DELETE match no API route and answer 404; `OPTIONS` is answered before routing (see `Router.Handle`) |
| Router.ExceptionStatuses | backend/index.php:239-245 | Service errors and `InvalidArgumentException` give 400 with the message, `RuntimeException` gives 500 with the message, anything else gives 500 with the generic body |

## Left out

- Storage (`Storage.php`) is not part of this model. Loading becomes the constructor's `loaded` argument, and `persist()` becomes a ghost write counter `saves`. File I/O, locking and JSON encoding are not modelled.
- `uniqid` is a clock-based random source, so it becomes the caller-supplied `generated` argument.
- `DateTimeImmutable::createFromFormat('Y-m-d', ..)->format('Y-m-d')` becomes the function `dates`. PHP's calendar rules, including its acceptance of dates such as 2024-02-30 (rolled over), are not modelled. The leniency the service adds itself, cutting the trimmed text to its first ten characters with `substr`, is modelled (`Text.Prefix`), so any text after the date is ignored before `dates` is called.
- Model.ParseDate: the result is exact only relative to `dates`; the calendar validation itself is not proved.
- PHP loose typing is not modelled. This covers the `(int)` casts of durations and ids given as numbers in JSON. It also covers the integer-like string keys that PHP turns into integer keys, which makes the strict `in_array` / `!==` comparisons differ. Payload fields are modelled as already-typed strings, integers and string lists. A `null` field counts as absent, which agrees with `??` and `isset`.
- Integer overflow in durations is not modelled; durations are unbounded integers.
- `readJsonBody` is reduced to the link ids it yields, or to a malformed-body error. The rest of the body reaches the service as a payload.
- HTTP output is not modelled. This covers headers, CORS and `json_encode` of the payload; the `OPTIONS` early exit is modelled only as its 204 status. The response carries only a status and the kind of body.
- Constructing `CmsService` happens before the `try`. A failing load is therefore an uncaught error, which the model does not represent.
- Concurrent requests are not modelled. Each request loads and saves the whole file, so two requests can overwrite each other.
- `frontend/app.js` is not part of this model.
- A loaded store is not checked against the invariant `Valid`. The state-changing methods therefore do not require it: they are proved to preserve it when it holds, and on any store they give the source's result.

## Findings

| source | as written | input that shows it | evidently intended | confidence | as-written member | corrected member |
|---|---|---|---|---|---|---|
| backend/index.php:137-213 | The entity `DELETE` test comes before the sub-resource test. It matches every path with an id segment, so the unlink branches at lines 154 and 210 can never be reached | `DELETE /api/tiempos/t1/pnts/p1` deletes tiempo `t1` (and strips it from every carpeta) instead of removing PNT `p1` from it | The sub-resource `DELETE` routes to `removePntFromTiempo` / `removeTiempoFromCarpeta`, and every other request is routed as before | high; not executed | Router.UnlinkUnreachableAsWritten | Router.UnlinkRoutedWhenFixed |
