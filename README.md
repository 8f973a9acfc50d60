# GoldenDogFarm client — a Dafny model of its screen logic

GoldenDogFarm is the Angular front end of a dog-breeding farm's back office. Each screen is a
component that lists one kind of record (dogs, vaccinations, reservations, breedings, health
checks, treatments, users, customers and the reference tables), keeps an add/edit form, builds
the HTTP request that saves or disables a record, and turns a failed request into a dialog text.

This project models that logic in Dafny and proves what each screen promises about it.

- **Shared JavaScript semantics** (`js.dfy`). Values, truthiness, `||` and `?.`, `String(n)`,
  `parseInt(s, 10)`, `splice(i, 1)` and `slice(0, n)` are written out as JavaScript defines them.
  A member access that throws on `null` is modelled too.
- **Requests and errors** (`http.dfy`). A request is its verb, its path relative to the API
  server, and its JSON body. The same module holds the status-to-text classifier the screens
  share, the add-or-update choice of a save, and the confirmed, token-checked disable.
- **Paged lists** (`listing.dfy`). The `ListController` class holds the state the paged screens
  update in place: rows, current page, page size, totals, loading flag and filters. Its methods
  are the load callbacks, search, page-size change and `goToPage`. `getPageNumbers` is a loop
  proved against the five-page window. `Collection` and `FormState` are the unpaged lists and
  add/edit forms of the reference screens.
- **One module per screen.** Each has its record types, its form copy rule (`editX`), its
  payload, its save and disable requests, its label maps and its error texts. Where the
  component updates fields in place, a class does so: the vaccination and breeding form pairs,
  the vet form, the dog add and edit screens with their picked and stored files, the position
  form and the sign-in screen.
- **Dog forms** (`dog_forms.dfy`). The add and edit screens share the eighteen form keys and
  the multipart body both send. The edit screen's `for…in` loop is proved against the list of
  filled fields; the add screen's loop is proved against the list of all fields. A lemma shows
  the two agree on a fully filled form.
- **Sign-in.** The email check is proved equal to the regular expression
  `^[^\s@]+@[^\s@]+\.[^\s@]+$`, written as a ghost predicate over the three matched parts.

Paths in the table below are relative to the repository root. Line ranges are the lines each
member models.

## Model

| member | source | states |
|---|---|---|
| Js.Or | src/app/dogs/view-dogs/view-dogs.component.ts:119 | `a \|\| b` is truthy exactly when either operand is, and yields `a` when `a` is truthy, `b` otherwise |
| Js.OptionalMember | src/app/dogs/view-dogs/view-dogs.component.ts:119 | `v?.k` is `undefined` on a non-object and the member's value (or `undefined` when absent) on an object |
| Js.Member | src/app/dog-health-checks/dog-health-checks.component.ts:326-331 | `v.k` throws exactly when `v` is `null` or `undefined`, and otherwise reads like `v?.k` |
| Js.MapOrThrow | src/app/dog-health-checks/dog-health-checks.component.ts:324-337 | `array.map(f)` with a throwing `f` succeeds exactly when `f` succeeds on every element, and then maps every element in order |
| Js.Lookup | src/app/dogs/add-dogs/add-dogs.component.ts:206-207 | reading a missing key gives `undefined`, a present key its value |
| Js.NatToString | src/app/dogs/view-dogs/view-dogs.component.ts:173 | a number in a template string is a non-empty run of digits without a leading zero unless it is 0 |
| Js.DigitsValueOfNatToString | src/app/dogs/view-dogs/view-dogs.component.ts:173 | the digits printed for `n` read back as `n` |
| Js.TrimStart | src/app/dogs/manage-position/manage-position.component.ts:61 | `parseInt` skips a suffix-preserving run of leading white space and stops at a non-space |
| Js.DigitPrefix | src/app/dogs/manage-position/manage-position.component.ts:61 | `parseInt` reads the longest prefix of decimal digits |
| Js.ParseDigits | src/app/dogs/manage-position/manage-position.component.ts:61 | a digit run gives a non-negative number, an empty one NaN |
| Js.ParseInt | src/app/dogs/manage-position/manage-position.component.ts:61 | `parseInt(s, 10)` is always a number or NaN |
| Js.ParseIntOfDigits | src/app/dogs/manage-position/manage-position.component.ts:61 | a non-empty digit string parses to its decimal value |
| Js.ParseIntOfNegatedDigits | src/app/dogs/manage-position/manage-position.component.ts:61 | `-` followed by digits parses to the negated value |
| Js.ParseIntOfIntToString | src/app/dogs/manage-position/manage-position.component.ts:61 | printing an integer and parsing it back gives the same integer |
| Js.SpliceOne | src/app/dogs/add-dogs/add-dogs.component.ts:168-169 | `splice(i, 1)` drops element `i`, counts a negative `i` from the end, clamps an index before the start to the first element, and leaves the array alone past its end |
| Js.SliceTo | src/app/dogs/edit-dog/edit-dog.component.ts:209 | `slice(0, end)` is a prefix of length `min(end, n)`, or `max(n + end, 0)` for a negative `end` |
| Http.ErrorMessage | src/app/dog-health-checks/dog-health-checks.component.ts:397-404 | the dialog text of a failed request: the server's `error` text for the statuses that use it when it is truthy, the screen's fixed text otherwise; never empty when the fixed texts are not |
| Http.ErrorMessageBySource | src/app/dog-health-checks/dog-health-checks.component.ts:397-404 | two failures with the same status and no usable server text show the same fixed text |
| Http.HandleError | src/app/dog-health-checks/dog-health-checks.component.ts:389-411 | the shared `handleError` texts: server text for 400/404/500, not-found and server-failure fallbacks, 401 and 0 fixed texts, the generic text for anything else |
| Http.Serialized | src/app/reservations/reservations.component.ts:212-224 | a JSON body drops exactly the `undefined` members and keeps every other member unchanged |
| Http.SaveRequest | src/app/dog-colors/dog-colors.component.ts:104-106 | edit mode sends to the edit path with the record id, otherwise POSTs to the add path; the body is the payload unchanged |
| Http.Disable | src/app/dogs/view-dogs/view-dogs.component.ts:160-173 | a confirmed disable sends a PATCH with an empty body exactly when the token check passes, and reports a missing token instead of sending |
| Labels.LabelOf | src/app/dogs/view-dogs/view-dogs.component.ts:243-260 | a known code shows its label, any other code is shown as it is |
| Listing.CeilDiv | src/app/vaccinations/vaccinations.component.ts:803 | `ceil(total / size)`: the smallest page count that holds every record; zero exactly when there are no records |
| Listing.Span | src/app/vaccinations/vaccinations.component.ts:848-850 | the loop pushes every integer from start to end, in order |
| Listing.PageWindowShape | src/app/vaccinations/vaccinations.component.ts:838-853 | the page buttons are consecutive, within 1..totalPages, at most five, hold the current page whenever it exists, put it third when it has two pages on either side, and number `min(5, totalPages)` |
| Listing.SentFiltersExactly | src/app/vaccinations/vaccinations.component.ts:782-788 | a filter is sent exactly when its value is truthy, and then with that value |
| Listing.PageQueryParams | src/app/vaccinations/vaccinations.component.ts:778-788 | the query starts with page and limit and holds each filter exactly when it is chosen |
| Listing.EmptyFiltersAreOmitted | src/app/vaccinations/vaccinations.component.ts:778-788 | with no filter chosen the query is page and limit alone |
| Listing.ListController.constructor | src/app/vaccinations/vaccinations.component.ts:94-101 | a list starts on page 1, empty, with zero totals and the screen's page size |
| Listing.ListController.SetFilter | src/app/vaccinations/vaccinations.component.ts:94-95 | binding a search box changes that filter's value and nothing else |
| Listing.ListController.Load | src/app/vaccinations/vaccinations.component.ts:775-780 | a load marks the list loading and sends the page query of the current page, size and filters |
| Listing.ListController.Loaded | src/app/vaccinations/vaccinations.component.ts:800-804 | a successful load stores the rows and total and sets the page count to `ceil(total / pageSize)` |
| Listing.ListController.LoadedMapped | src/app/dog-health-checks/dog-health-checks.component.ts:323-340 | rows that all map store the mapped rows; a row that throws leaves the rows and totals as they were |
| Listing.ListController.LoadFailed | src/app/vaccinations/vaccinations.component.ts:810-816 | a failed load ends loading and, on screens that clear, empties the rows and both totals |
| Listing.ListController.Search | src/app/vaccinations/vaccinations.component.ts:820-823 | a search goes back to page 1 and reloads |
| Listing.ListController.ChangePageSize | src/app/vaccinations/vaccinations.component.ts:825-829 | a new page size goes back to page 1 and reloads with that size |
| Listing.ListController.GoToPage | src/app/vaccinations/vaccinations.component.ts:831-836 | a page inside 1..totalPages becomes current and reloads; any other page changes nothing |
| Listing.ListController.PageNumbers | src/app/vaccinations/vaccinations.component.ts:838-853 | the loop yields the page window whose shape PageWindowShape states |
| Listing.Collection.constructor | src/app/dog-colors/dog-colors.component.ts:30 | a reference list starts empty and not loading |
| Listing.Collection.Load | src/app/dog-colors/dog-colors.component.ts:239-240 | `loadData()` marks the list loading |
| Listing.Collection.Loaded | src/app/dog-colors/dog-colors.component.ts:251-253 | a successful load stores the rows and ends loading |
| Listing.Collection.LoadFailed | src/app/dog-colors/dog-colors.component.ts:255-258 | a failed load empties the list and ends loading |
| Listing.FormState.constructor | src/app/dog-colors/dog-colors.component.ts:155-161 | a form starts as the screen's blank form |
| Listing.FormState.Reset | src/app/dog-colors/dog-colors.component.ts:155-161 | `resetForm()` puts back the blank form |
| Listing.FormState.Edit | src/app/dog-colors/dog-colors.component.ts:164-170 | `editX(r)` fills the form by the screen's copy rule from `r` |
| Listing.FormState.Bind | src/app/dog-colors/dog-colors.component.ts:164-170 | a template binding replaces the form with what the user typed |
| DogColors.FormOf | src/app/dog-colors/dog-colors.component.ts:164-170 | editing a colour copies every field of the record, id and status included |
| DogColors.Payload | src/app/dog-colors/dog-colors.component.ts:92-96 | the JSON body holds exactly the form's fields and its id, with their values |
| DogColors.Save | src/app/dog-colors/dog-colors.component.ts:105-106 | a form with a stored id is PUT to `colors/editColor/<id>`, any other form is POSTed to `colors/addColor`; both carry the payload |
| DogColors.SaveAfterResetOrEdit | src/app/dog-colors/dog-colors.component.ts:155-170 | after `resetForm()` a save creates a colour with id 0; after editing a stored colour it updates that record with the record's own values |
| DogColors.DisableColor | src/app/dog-colors/dog-colors.component.ts:192-202 | once confirmed, the PATCH to `colors/disableColor/<id>` with an empty body is sent exactly when a token is stored |
| DogColors.StatusText | src/app/dog-colors/dog-colors.component.ts:264-273 | '1' reads active, '2' disabled, any other code is shown as it is |
| DogColors.NewScreen | src/app/dog-colors/dog-colors.component.ts:28-36 | the screen starts with an empty list, not loading, and the blank active form, which editing fills by `FormOf` |
| Clinics.FormOf | src/app/clinic/clinic.component.ts:171-179 | editing a clinic copies every field of the record, id and status included |
| Clinics.Payload | src/app/clinic/clinic.component.ts:95-101 | the JSON body holds exactly the form's fields and its id, with their values |
| Clinics.Save | src/app/clinic/clinic.component.ts:110-111 | a form with a stored id is PUT to `Clinics/editClinic/<id>`, any other form is POSTed to `Clinics/addClinic`; both carry the payload |
| Clinics.SaveAfterResetOrEdit | src/app/clinic/clinic.component.ts:160-179 | after `resetForm()` a save creates a clinic with id 0; after editing a stored clinic it updates that record with the record's own values |
| Clinics.DisableClinic | src/app/clinic/clinic.component.ts:201-211 | once confirmed, the PATCH to `Clinics/disableClinic/<id>` with an empty body is sent exactly when a token is stored |
| Clinics.StatusText | src/app/clinic/clinic.component.ts:272-281 | '1' reads active, '2' disabled, any other code is shown as it is |
| Clinics.NewScreen | src/app/clinic/clinic.component.ts:30-40 | the screen starts with an empty list, not loading, and the blank active form, which editing fills by `FormOf` |
| HealthCheckList.FormOf | src/app/health-check-list/health-check-list.component.ts:158-165 | editing a health check copies every field of the record, id and status included |
| HealthCheckList.Payload | src/app/health-check-list/health-check-list.component.ts:88-93 | the JSON body holds exactly the form's fields and its id, with their values |
| HealthCheckList.Save | src/app/health-check-list/health-check-list.component.ts:102-103 | a form with a stored id is PUT to `healthCheckList/edit_hcl/<id>`, any other form is POSTed to `healthCheckList/add_hcl`; both carry the payload |
| HealthCheckList.SaveAfterResetOrEdit | src/app/health-check-list/health-check-list.component.ts:149-165 | after `resetForm()` a save creates a health check with id 0; after editing a stored health check it updates that record with the record's own values |
| HealthCheckList.DisableHealthCheck | src/app/health-check-list/health-check-list.component.ts:186-196 | once confirmed, the PATCH to `healthCheckList/disable_hcl/<id>` with an empty body is sent exactly when a token is stored |
| HealthCheckList.StatusText | src/app/health-check-list/health-check-list.component.ts:251-260 | '1' reads active, '2' disabled, any other code is shown as it is |
| HealthCheckList.NewScreen | src/app/health-check-list/health-check-list.component.ts:28-35 | the screen starts with an empty list, not loading, and the blank active form, which editing fills by `FormOf` |
| TreatmentList.FormOf | src/app/treatment-list/treatment-list.component.ts:166-173 | editing a treatment copies every field of the record, id and status included |
| TreatmentList.Payload | src/app/treatment-list/treatment-list.component.ts:92-97 | the JSON body holds exactly the form's fields and its id, with their values |
| TreatmentList.Save | src/app/treatment-list/treatment-list.component.ts:106-107 | a form with a stored id is PUT to `treatmentList/editTreatment/<id>`, any other form is POSTed to `treatmentList/addTreatment`; both carry the payload |
| TreatmentList.SaveAfterResetOrEdit | src/app/treatment-list/treatment-list.component.ts:156-173 | after `resetForm()` a save creates a treatment with id 0; after editing a stored treatment it updates that record with the record's own values |
| TreatmentList.DisableTreatment | src/app/treatment-list/treatment-list.component.ts:195-205 | once confirmed, the PATCH to `treatmentList/disableTreatment/<id>` with an empty body is sent exactly when a token is stored |
| TreatmentList.StatusText | src/app/treatment-list/treatment-list.component.ts:266-275 | '1' reads active, '2' disabled, any other code is shown as it is |
| TreatmentList.NewScreen | src/app/treatment-list/treatment-list.component.ts:28-37 | the screen starts with an empty list, not loading, and the blank active form, which editing fills by `FormOf` |
| VaccineList.FormOf | src/app/vaccine-list/vaccine-list.component.ts:159-166 | editing a vaccine copies every field of the record, id and status included |
| VaccineList.Payload | src/app/vaccine-list/vaccine-list.component.ts:89-94 | the JSON body holds exactly the form's fields and its id, with their values |
| VaccineList.Save | src/app/vaccine-list/vaccine-list.component.ts:103-104 | a form with a stored id is PUT to `vaccines/editVaccine/<id>`, any other form is POSTed to `vaccines/addVaccine`; both carry the payload |
| VaccineList.SaveAfterResetOrEdit | src/app/vaccine-list/vaccine-list.component.ts:150-166 | after `resetForm()` a save creates a vaccine with id 0; after editing a stored vaccine it updates that record with the record's own values |
| VaccineList.DisableVaccine | src/app/vaccine-list/vaccine-list.component.ts:187-197 | once confirmed, the PATCH to `vaccines/disableVaccine/<id>` with an empty body is sent exactly when a token is stored |
| VaccineList.StatusText | src/app/vaccine-list/vaccine-list.component.ts:252-261 | '1' reads active, '2' disabled, any other code is shown as it is |
| VaccineList.NewScreen | src/app/vaccine-list/vaccine-list.component.ts:29-36 | the screen starts with an empty list, not loading, and the blank active form, which editing fills by `FormOf` |
| Vets.FormOf | src/app/vet/vet.component.ts:206-214 | editing a vet copies id, name, phone, clinic and status, and leaves the clinic name out of the form |
| Vets.WithClinicOrNull | src/app/vet/vet.component.ts:124-126 | an unset clinic (0, '', undefined, null) becomes null and any other form is unchanged; afterwards the clinic is a real id or null |
| Vets.WithClinicOrNullIdempotent | src/app/vet/vet.component.ts:124-126 | rewriting an already rewritten form changes nothing |
| Vets.Payload | src/app/vet/vet.component.ts:129-135 | the JSON body holds exactly name, phone, clinicId, status and id, never the clinic name |
| Vets.Save | src/app/vet/vet.component.ts:122-145 | the body is the form's name, phone, status and id with the clinic when set and null otherwise; a stored id is PUT to `Vets/editVet/<id>`, anything else POSTed to `Vets/addVet` |
| Vets.DisableVet | src/app/vet/vet.component.ts:236-246 | once confirmed, the PATCH to `Vets/disableVet/<id>` with an empty body is sent exactly when a token is stored |
| Vets.StatusText | src/app/vet/vet.component.ts:308-317 | '1' reads active, '2' disabled, any other code is shown as it is |
| Vets.VetScreen.constructor | src/app/vet/vet.component.ts:37-50 | the screen starts with an empty vet list, not loading, and the blank active form with clinic 0 |
| Vets.VetScreen.ResetForm | src/app/vet/vet.component.ts:194-203 | `resetForm()` puts back the blank form |
| Vets.VetScreen.EditVet | src/app/vet/vet.component.ts:206-214 | `editVet(v)` sets the form to FormOf(v) |
| Vets.VetScreen.SaveForm | src/app/vet/vet.component.ts:122-145 | `save()` rewrites an unset clinic to null in the form itself and sends exactly Save of the form as it stood |
| DogPositions.FormOf | src/app/dog-positions/dog-positions.component.ts:163-169 | editing a position copies every field of the record, id and status included |
| DogPositions.Payload | src/app/dog-positions/dog-positions.component.ts:91-95 | the JSON body holds exactly the form's fields and its id, with their values |
| DogPositions.Save | src/app/dog-positions/dog-positions.component.ts:104-105 | a form with a stored id is PUT to `position/editPosition/<id>`, any other form is POSTed to `position/addPosition`; both carry the payload |
| DogPositions.SaveAfterResetOrEdit | src/app/dog-positions/dog-positions.component.ts:154-169 | after `resetForm()` a save creates a position with id 0; after editing a stored position it updates that record with the record's own values |
| DogPositions.DisablePosition | src/app/dog-positions/dog-positions.component.ts:191-201 | once confirmed, the PATCH to `position/disablePosition/<id>` with an empty body is sent exactly when a token is stored |
| DogPositions.StatusText | src/app/dog-positions/dog-positions.component.ts:262-271 | '1' reads active, '2' disabled, any other code is shown as it is |
| DogPositions.NewScreen | src/app/dog-positions/dog-positions.component.ts:28-36 | the screen starts with an empty list, not loading, and the blank active form, which editing fills by `FormOf` |
| Vaccinations.FormOf | src/app/vaccinations/vaccinations.component.ts:652-661 | `editVaccination`: the record's `vR_ID` becomes the form's id; the ids, the status and the doses are copied |
| Vaccinations.Payload | src/app/vaccinations/vaccinations.component.ts:496-502 | the body holds exactly the three ids, the status under the name `status`, and the id; never the doses |
| Vaccinations.Save | src/app/vaccinations/vaccinations.component.ts:494-559 | a PATCH to `editVaccinationRecord/<id>` in edit mode (id > 0), a POST to `addVaccinationRecord` otherwise, with that body |
| Vaccinations.SaveOfEditedVaccination | src/app/vaccinations/vaccinations.component.ts:494-559 | an edited record is saved as an update of that record with its status and id, and without its doses; a blank form creates a record with status '1' |
| Vaccinations.DoseToAppend | src/app/vaccinations/vaccinations.component.ts:666-669 | the appended dose keeps every field of the dose form, and its status is the form's when truthy, else '1' |
| Vaccinations.ActiveDose | src/app/vaccinations/vaccinations.component.ts:885-891 | `getActiveDose`: none exactly when no dose has status '1' (no doses included); otherwise the first dose with status '1' |
| Vaccinations.DosePayload | src/app/vaccinations/vaccinations.component.ts:393-401 | the body holds the record id from `currentVRID` and the dose's vet, number, dates, notes and status, each the dose form's value |
| Vaccinations.SaveDose | src/app/vaccinations/vaccinations.component.ts:409-449 | a PATCH to `editDose/<dS_ID>` in dose edit mode, a POST to `addDose` otherwise, with that body |
| Vaccinations.VaccinationForms.constructor | src/app/vaccinations/vaccinations.component.ts:106-124 | a blank record with no doses, the default dose form, dose edit mode off, record 0 |
| Vaccinations.VaccinationForms.SaveDoseRequest | src/app/vaccinations/vaccinations.component.ts:391-449 | the request `saveDose()` sends for the current record, mode and dose form |
| Vaccinations.VaccinationForms.ResetForm | src/app/vaccinations/vaccinations.component.ts:634-650 | the blank record and a cleared dose form, which has no vet |
| Vaccinations.VaccinationForms.EditVaccination | src/app/vaccinations/vaccinations.component.ts:652-661 | the record form becomes the record's copy |
| Vaccinations.VaccinationForms.ResetDoseForm | src/app/vaccinations/vaccinations.component.ts:245-254 | the default dose form: vet 0, number 0, empty dates and notes, status '1' |
| Vaccinations.VaccinationForms.OpenAddDoseModal | src/app/vaccinations/vaccinations.component.ts:238-242 | the dose is a new one of the given record, with the default dose form |
| Vaccinations.VaccinationForms.EditDose | src/app/vaccinations/vaccinations.component.ts:256-260 | the dose's own record, a copy of the dose, dose edit mode on |
| Vaccinations.VaccinationForms.AddDose | src/app/vaccinations/vaccinations.component.ts:663-685 | with a dose number and a scheduled date, appends exactly that dose (status defaulting to '1') and clears the dose form; otherwise nothing changes |
| Vaccinations.VaccinationForms.RemoveDose | src/app/vaccinations/vaccinations.component.ts:687-689 | removes exactly the dose at the index (JavaScript `splice` rules), keeping the others in order; nothing else changes |
| Vaccinations.AddThenRemoveLast | src/app/vaccinations/vaccinations.component.ts:663-689 | removing the dose just added gives back the doses as they were, and the added dose always has a truthy status |
| Vaccinations.ActiveDoseAfterAppend | src/app/vaccinations/vaccinations.component.ts:663-691 | appending a dose to a record that has an active dose leaves the active dose unchanged; appending an active dose to a record with none makes it the active one |
| Vaccinations.DoseSavedUnderItsRecord | src/app/vaccinations/vaccinations.component.ts:238-260 | a new dose is created under the record it was opened for, with vet 0 and status '1'; an edited dose updates itself under its own record |
| Vaccinations.DisableVaccination | src/app/vaccinations/vaccinations.component.ts:708-721 | a PATCH with an empty body to `disableVaccinationRecord/<id>` exactly when confirmed with a stored token; without a token it throws first |
| Vaccinations.DisableDose | src/app/vaccinations/vaccinations.component.ts:279-292 | a PATCH with an empty body to `disableDose/<id>` exactly when confirmed with a stored token; without a token it throws first |
| Vaccinations.SaveFailureMessage | src/app/vaccinations/vaccinations.component.ts:536-590 | the dialog text of a failed record save: the server's text for 400 and 500; 404 has a branch when editing only, so an add's 404 gets the add fallback |
| Vaccinations.SaveDoseFailureMessage | src/app/vaccinations/vaccinations.component.ts:426-471 | the same for a dose save: an add's 404 gets the dose-add fallback |
| Vaccinations.DisableFailureMessage | src/app/vaccinations/vaccinations.component.ts:743-754 | the dialog text of a failed record disable, with its own 400 text |
| Vaccinations.DisableDoseFailureMessage | src/app/vaccinations/vaccinations.component.ts:305-316 | the dialog text of a failed dose disable, with its own 400 text |
| Vaccinations.VaccinationsQuery | src/app/vaccinations/vaccinations.component.ts:775-788 | `page` and `limit` first; `dog_Name` and `vR_Status` each present exactly when non-empty, with their values |
| Vaccinations.NewScreen | src/app/vaccinations/vaccinations.component.ts:86-124 | page 1 of 5 rows, empty filters, a failed load empties the list, blank forms |
| Vaccinations.StatusText | src/app/vaccinations/vaccinations.component.ts:855-868 | the four record statuses by code, any other code as it is |
| Vaccinations.DoseStatusText | src/app/vaccinations/vaccinations.component.ts:870-883 | '1' reads as an appointment, '2' to '4' as the record's statuses, any other code as it is |
| Breeding.BreedingFormOf | src/app/breeding/breeding.component.ts:210-221 | `editBreeding`: the form takes the record's id, mother's id, dates, notes, puppies, status and attempts; reading the mother's id throws when the record has no mother |
| Breeding.BreedingPayload | src/app/breeding/breeding.component.ts:236-243 | the body holds exactly the mother's id, the two dates, the notes, the puppy count and the status; never the id or the attempts |
| Breeding.SaveBreeding | src/app/breeding/breeding.component.ts:248-254 | a PUT to `editBreeding/<id>` when the id is non-zero (`!!id`), a POST to `addBreeding` otherwise, with that body |
| Breeding.SaveEditedBreeding | src/app/breeding/breeding.component.ts:203-254 | saving an edited record updates it whatever the sign of its id; a field the API left out is not written to the JSON, and the id and attempts never are; a blank form creates an in-progress breeding with no puppies |
| Breeding.DisableBreeding | src/app/breeding/breeding.component.ts:268-285 | a PATCH with an empty body to `disableBreeding/<id>` exactly when confirmed; there is no token check |
| Breeding.BlankAttemptForm | src/app/breeding/breeding.component.ts:306-316 | `resetAttemptForm`: id 0, the current breeding, no father, status '1' |
| Breeding.AttemptFormOf | src/app/breeding/breeding.component.ts:318-330 | `editAttempt`: the form takes the attempt's fields with the father's id; reading it throws when the attempt has no father |
| Breeding.AttemptPayload | src/app/breeding/breeding.component.ts:345-352 | the body renames the form: `breed_ID` is the current breeding, then `father_ID` and the four `attempt_` fields; nothing else |
| Breeding.SaveAttempt | src/app/breeding/breeding.component.ts:357-363 | a PUT to `editBreedingAttempt/<id>` when the attempt's id is non-zero, a POST to `addBreedingAttempt` otherwise |
| Breeding.DisableAttempt | src/app/breeding/breeding.component.ts:377-394 | a PATCH with an empty body to `disableBreedingAttempt/<id>` exactly when confirmed; there is no token check |
| Breeding.BreedingForms.constructor | src/app/breeding/breeding.component.ts:80-102 | both forms blank and no current breeding |
| Breeding.BreedingForms.ResetForm | src/app/breeding/breeding.component.ts:203-208 | the breeding form is blank again |
| Breeding.BreedingForms.EditBreeding | src/app/breeding/breeding.component.ts:210-221 | the breeding form becomes the record's copy; when reading the mother throws, the form is left as it was |
| Breeding.BreedingForms.ResetAttemptForm | src/app/breeding/breeding.component.ts:306-316 | a blank attempt of the current breeding, so the attempt form targets it |
| Breeding.BreedingForms.OpenAddAttemptModal | src/app/breeding/breeding.component.ts:301-304 | the current breeding becomes the given one, with a blank attempt of it |
| Breeding.BreedingForms.EditAttempt | src/app/breeding/breeding.component.ts:318-330 | the current breeding becomes the attempt's; the form becomes its copy unless reading the father throws, which leaves the form as it was |
| Breeding.BreedingForms.SaveAttemptRequest | src/app/breeding/breeding.component.ts:344-363 | the request `saveAttempt()` sends for the current breeding and form |
| Breeding.AttemptSavedUnderItsBreeding | src/app/breeding/breeding.component.ts:301-363 | a new attempt is created under the breeding it was opened for; an edited attempt updates it under its own breeding with its father's id |
| Breeding.BreedingErrorMessage | src/app/breeding/breeding.component.ts:414-419 | 400 and 404 show the server's text when present; 401 and 0 fixed texts; everything else, 500 included, the generic text |
| Breeding.FailureText | src/app/breeding/breeding.component.ts:420 | the dialog reads the failed action, ': ', then the message |
| Breeding.ServerErrorIsGeneric | src/app/breeding/breeding.component.ts:414-420 | a 500 reads like any unlisted status, whatever the server sent |
| Breeding.BreedingsQuery | src/app/breeding/breeding.component.ts:143-152 | `page` and `limit` first; status, year and month each present exactly when chosen, year and month as `toString()` writes them |
| Breeding.YearFilter | src/app/breeding/breeding.component.ts:151 | a chosen year is sent as its decimal digits; no year is sent when none is chosen |
| Breeding.NewScreen | src/app/breeding/breeding.component.ts:67-102 | page 1 of 10 rows, no filter, a failed load keeps the rows, both forms blank |
| Breeding.BreedingStatusText | src/app/breeding/breeding.component.ts:424-432 | the four breeding statuses by code, any other code as it is |
| Breeding.AttemptStatusText | src/app/breeding/breeding.component.ts:434-441 | the three attempt statuses, the same as the breeding's, any other code as it is |
| Breeding.AttemptTypeText | src/app/breeding/breeding.component.ts:443-449 | '1' artificial insemination, '2' natural mating, any other code as it is |
| DogForms.AllFields | src/app/dogs/add-dogs/add-dogs.component.ts:205-208 | the add screen's FormData: one text entry per key, in key order, each the value's `String()` |
| DogForms.FilledField | src/app/dogs/edit-dog/edit-dog.component.ts:295-297 | one key contributes its text exactly when its value is neither '' nor null, and nothing otherwise |
| DogForms.FilledFieldsSnoc | src/app/dogs/edit-dog/edit-dog.component.ts:294-298 | visiting one more key appends that key's entry, if any, to the entries of the keys before it |
| DogForms.FilledFieldsSound | src/app/dogs/edit-dog/edit-dog.component.ts:294-298 | every entry the edit screen sends is a filled field of the form, carrying the text of its value |
| DogForms.FilledFieldsComplete | src/app/dogs/edit-dog/edit-dog.component.ts:294-298 | every filled field of the form is sent, with the text of its value |
| DogForms.EmptyFieldsNotSent | src/app/dogs/edit-dog/edit-dog.component.ts:295 | a field whose value is '' or null is not sent under any position |
| DogForms.FilledFieldsOfFullForm | src/app/dogs/edit-dog/edit-dog.component.ts:294-298 | when every value is filled, the edit screen's filtered fields equal the add screen's unfiltered ones |
| DogForms.OptionalUpload | src/app/dogs/add-dogs/add-dogs.component.ts:210-212 | a single file is appended under its name only when one is picked |
| DogForms.ShowUploads | src/app/dogs/add-dogs/add-dogs.component.ts:213-215 | one `show` entry per picked show file, in order |
| DogForms.FileEntries | src/app/dogs/add-dogs/add-dogs.component.ts:210-215 | the file part of the FormData: only uploads, one per picked file, the show files last |
| DogForms.Previews | src/app/dogs/add-dogs/add-dogs.component.ts:145 | the show previews match the show files one for one, each its file's object URL |
| DogForms.SpliceKeepsPreviews | src/app/dogs/add-dogs/add-dogs.component.ts:166-170 | removing the same index from the show files and their previews keeps them matched, for every index `splice` accepts |
| DogForms.RemovePicked | src/app/dogs/add-dogs/add-dogs.component.ts:149-176 | `removeFile`: clears the named file and its preview; for show files, splices one index or clears all when no index is given; an unknown type changes nothing |
| DogForms.RemovePickedKeepsPreviews | src/app/dogs/edit-dog/edit-dog.component.ts:216-239 | after any `removeFile`, every picked picture is still shown by its own object URL |
| AddDogs.Default | src/app/dogs/add-dogs/add-dogs.component.ts:41-60 | the defaults of a new dog: status '5', breeding status '2', sale status '2', deletion status '1', every other field '' |
| AddDogs.SaveFailedText | src/app/dogs/add-dogs/add-dogs.component.ts:224-227 | a failed save shows `err.error?.message` when it is truthy, else the fixed text; never an empty text |
| AddDogs.AddDogScreen.constructor | src/app/dogs/add-dogs/add-dogs.component.ts:41-60 | a new screen holds the new-dog form and no picked file |
| AddDogs.AddDogScreen.OnFileChange | src/app/dogs/add-dogs/add-dogs.component.ts:124-148 | a picked profile or pedigree picture replaces the previous one with its preview, a PDF replaces the PDF, show files replace all previous ones with no cap; nothing picked or an unknown type changes nothing; previews stay matched |
| AddDogs.AddDogScreen.RemoveFile | src/app/dogs/add-dogs/add-dogs.component.ts:149-176 | `removeFile` is `RemovePicked` on the picked files, and previews stay matched |
| AddDogs.AddDogScreen.SaveDog | src/app/dogs/add-dogs/add-dogs.component.ts:199-218 | the POST to `addDog` carries every form field in key order, unfiltered, followed by the picked files |
| AddDogs.AddDogScreen.ResetForm | src/app/dogs/add-dogs/add-dogs.component.ts:231-262 | the new-dog form again and nothing picked |
| AddDogs.SaveOfNewDog | src/app/dogs/add-dogs/add-dogs.component.ts:41-60 | saving an untouched form sends all eighteen fields, each with its default |
| AddDogs.SaveAndUpdateAgreeOnFullForms | src/app/dogs/add-dogs/add-dogs.component.ts:205-208 | on a fully filled form the add screen and the edit screen send the same fields |
| AddDogs.NewDogFormIsDogForm | src/app/dogs/add-dogs/add-dogs.component.ts:41-60 | the new-dog form holds exactly the eighteen keys the add and edit screens share |
| EditDog.FormFromDog | src/app/dogs/edit-dog/edit-dog.component.ts:112-132 | the form loaded from the server: the eighteen keys; each the server's value when truthy, else '' (deletion status '1'); so every value is truthy or '', and the deletion status is always truthy |
| EditDog.FormsAreDogForms | src/app/dogs/edit-dog/edit-dog.component.ts:49-68 | the initial form and every loaded form have exactly the eighteen keys of the dog form |
| EditDog.ExistingFile | src/app/dogs/edit-dog/edit-dog.component.ts:133-135 | a stored file has a URL exactly when the server names one, and the URL is the base, '/', and the name |
| EditDog.ExistingShowImages | src/app/dogs/edit-dog/edit-dog.component.ts:136-139 | the stored show pictures: one per name, with id and URL; a `showImages` that is not an array throws |
| EditDog.ShowFilesKeptAsWritten | src/app/dogs/edit-dog/edit-dog.component.ts:208-209 | the show files kept as written: a prefix of the picked files whose length follows `slice` with the end `4 - existing`, negative when more than four are stored |
| EditDog.AsWrittenExceedsCap | src/app/dogs/edit-dog/edit-dog.component.ts:209 | as written, a dog with more than four stored pictures is still given new ones, ending above four in all |
| EditDog.AsWrittenFiveStoredThreePicked | src/app/dogs/edit-dog/edit-dog.component.ts:209 | five stored pictures and three picked files keep two files, seven pictures in all |
| EditDog.CappedShowFiles | src/app/dogs/edit-dog/edit-dog.component.ts:207-212 | corrected rule: a prefix of the picked files such that stored plus new never exceeds four, and none once four are stored |
| EditDog.CappedAgreesUpToCap | src/app/dogs/edit-dog/edit-dog.component.ts:209 | with at most four stored pictures the corrected rule keeps exactly what the code keeps |
| EditDog.EditPath | src/app/dogs/edit-dog/edit-dog.component.ts:314 | the PUT goes to `editDog/<id>`, and to `editDog/null` when the route gave no id |
| EditDog.Flag | src/app/dogs/edit-dog/edit-dog.component.ts:300-303 | a set flag is sent as the text 'true'; an unset one is not sent |
| EditDog.DeleteEntries | src/app/dogs/edit-dog/edit-dog.component.ts:300-304 | one entry per set flag, plus the removed show ids joined with commas, last, when there are any |
| EditDog.SetFlagsAreSent | src/app/dogs/edit-dog/edit-dog.component.ts:300-303 | every set delete flag appears among the entries as 'true' |
| EditDog.UpdateFailedText | src/app/dogs/edit-dog/edit-dog.component.ts:320-323 | a failed update shows `err.error?.message` when it is truthy, else the fixed text |
| EditDog.EditDogScreen.constructor | src/app/dogs/edit-dog/edit-dog.component.ts:43-92 | the screen keeps the route's id, the initial form, and no picked, stored or deleted file |
| EditDog.EditDogScreen.LoadDogData | src/app/dogs/edit-dog/edit-dog.component.ts:111-140 | a null reply throws with nothing changed; otherwise the form and the stored-file URLs come from `res.data || res`, and the show pictures only when `showImages` is an array, the call throwing after the other assignments otherwise |
| EditDog.EditDogScreen.OnFileChange | src/app/dogs/edit-dog/edit-dog.component.ts:188-214 | picking a file replaces the previous one with its preview and clears the matching delete flag; show files are cut by `slice(0, 4 - stored)` as written, which with at most four stored equals the corrected cap and keeps stored plus new within four (see Findings) |
| EditDog.EditDogScreen.RemoveFile | src/app/dogs/edit-dog/edit-dog.component.ts:216-239 | `removeFile` is `RemovePicked` on the picked files, and previews stay matched |
| EditDog.EditDogScreen.ToggleDelete | src/app/dogs/edit-dog/edit-dog.component.ts:241-260 | flips exactly the named delete flag; setting it hides the stored file or all stored show pictures; an unknown type changes nothing |
| EditDog.EditDogScreen.RemoveExistingShow | src/app/dogs/edit-dog/edit-dog.component.ts:262-265 | records the picture's id for deletion and removes exactly that picture; an index with no picture throws with nothing changed |
| EditDog.EditDogScreen.UpdateDog | src/app/dogs/edit-dog/edit-dog.component.ts:287-314 | the PUT carries the filled fields in key order, then the deletions, then the picked files |
| EditDog.EditDogScreen.ResetForm | src/app/dogs/edit-dog/edit-dog.component.ts:327-343 | clears the picked files and the deletions, and reloads the dog exactly when the route gave a non-empty id |
| EditDog.UpdateAfterLoadSendsTruthyFields | src/app/dogs/edit-dog/edit-dog.component.ts:112-132 | right after a load, an update sends a field exactly when the server gave it a truthy value (and always the deletion status), with that value's text |
| EditDog.ApiNamesAreTheFormKeys | src/app/dogs/edit-dog/edit-dog.component.ts:113-132 | the edit screen fills exactly the eighteen form keys, each from one property of the server's dog |
| ViewDogs.WithProfileImage | src/app/dogs/view-dogs/view-dogs.component.ts:98-103 | every field of the row is kept, and `profileImage` becomes the base URL followed by the file name, or by `default.jpg` when the dog has none |
| ViewDogs.WithProfileImages | src/app/dogs/view-dogs/view-dogs.component.ts:98-103 | one mapped row per dog, in order |
| ViewDogs.LoadSucceeded | src/app/dogs/view-dogs/view-dogs.component.ts:97-107 | the list holds the mapped rows, the total, and the page count `ceil(total / pageSize)`; loading ends; page, page size and filters are untouched |
| ViewDogs.LoadFailureMessage | src/app/dogs/view-dogs/view-dogs.component.ts:117-128 | the dialog text by status: the server's text for 400, 404 and 500 when present, fixed texts for 401 and 0, the load text otherwise; never empty |
| ViewDogs.LoadFailed | src/app/dogs/view-dogs/view-dogs.component.ts:108-140 | a failed load shows that text and empties the list and both totals; page, page size and filters are untouched |
| ViewDogs.DisableDog | src/app/dogs/view-dogs/view-dogs.component.ts:144-173 | a PATCH with an empty body to `disableDog/<id>` is sent exactly when confirmed and a token is stored; a confirmed disable without a token throws first |
| ViewDogs.DogsQuery | src/app/dogs/view-dogs/view-dogs.component.ts:64-85 | `page` and `limit` first; each of the five filters is present exactly when chosen, with the chosen value |
| ViewDogs.NewScreen | src/app/dogs/view-dogs/view-dogs.component.ts:35-49 | page 1 of 5 rows, no filter chosen, an empty list |
| ViewDogs.StatusText | src/app/dogs/view-dogs/view-dogs.component.ts:243-260 | the six dog statuses by code, any other code as it is |
| ViewDogs.BreedingStatusText | src/app/dogs/view-dogs/view-dogs.component.ts:262-277 | the five breeding statuses by code, any other code as it is |
| ViewDogs.SaleStatusText | src/app/dogs/view-dogs/view-dogs.component.ts:279-292 | the four sale statuses by code, any other code as it is |
| ViewDogs.GenderText | src/app/dogs/view-dogs/view-dogs.component.ts:294-303 | 'M' and 'F' by name, any other code as it is |
| ManagePosition.RouteDogId | src/app/dogs/manage-position/manage-position.component.ts:59-61 | the form's dog is `parseInt` of a non-empty route id (possibly NaN), else 0 |
| ManagePosition.RouteDogIdOfNumber | src/app/dogs/manage-position/manage-position.component.ts:61 | a route id written from a dog's number gives back that number |
| ManagePosition.BlankForm | src/app/dogs/manage-position/manage-position.component.ts:252-260 | `resetForm`: id 0, position 0, status '1', the given year, and the route's dog |
| ManagePosition.FormOf | src/app/dogs/manage-position/manage-position.component.ts:262-270 | `editPosition` copies id, dog, position, year and status unchanged |
| ManagePosition.Payload | src/app/dogs/manage-position/manage-position.component.ts:192-196 | the body holds exactly the dog, the position and the year; never the id or the status |
| ManagePosition.Save | src/app/dogs/manage-position/manage-position.component.ts:204-206 | a PUT to `edit/<id>` when the id is positive, a POST to `add` otherwise, with that body |
| ManagePosition.SaveSucceededText | src/app/dogs/manage-position/manage-position.component.ts:213 | the server's message when truthy, else the success text of the mode |
| ManagePosition.DisablePosition | src/app/dogs/manage-position/manage-position.component.ts:288-301 | a PATCH with an empty body to `disable/<id>` exactly when confirmed with a stored token; a confirmed disable without a token throws first |
| ManagePosition.StatusText | src/app/dogs/manage-position/manage-position.component.ts:335-344 | '1' active, '2' disabled, any other code as it is |
| ManagePosition.PositionScreen.constructor | src/app/dogs/manage-position/manage-position.component.ts:48-66 | after `ngOnInit`, the screen keeps the route's id and the blank form for the route's dog |
| ManagePosition.PositionScreen.ResetForm | src/app/dogs/manage-position/manage-position.component.ts:252-260 | the blank form again, still for the route's dog |
| ManagePosition.PositionScreen.EditPosition | src/app/dogs/manage-position/manage-position.component.ts:262-270 | the form becomes the listed position's copy |
| ManagePosition.PositionScreen.SaveRequestNow | src/app/dogs/manage-position/manage-position.component.ts:190-206 | the request `save()` sends for the current form |
| ManagePosition.SaveAfterResetOrEdit | src/app/dogs/manage-position/manage-position.component.ts:190-206 | after a reset a save adds a position for the route's dog; after editing a stored position it updates that position with its dog, position and year |
| ManagePosition.NewPositionsBelongToTheRouteDog | src/app/dogs/manage-position/manage-position.component.ts:59-61 | opened from a dog's number, the screen adds positions for that same dog |
| SignIn.IsEmailMatches | src/app/sign-in/sign-in.component.ts:41 | a match by positions is a match of the regular expression |
| SignIn.MatchesIsEmail | src/app/sign-in/sign-in.component.ts:41 | a match of the regular expression is a match by positions |
| SignIn.IsEmailIsTheRegex | src/app/sign-in/sign-in.component.ts:41 | the positional test accepts exactly the strings the regular expression matches |
| SignIn.AcceptedEmailShape | src/app/sign-in/sign-in.component.ts:41 | an accepted email has no white space and exactly one '@', with text on both sides |
| SignIn.EmailExamples | src/app/sign-in/sign-in.component.ts:41 | `a@b.c` is accepted; `a@b`, `@b.c` and `a@b.` are rejected |
| SignIn.SignInScreen.constructor | src/app/sign-in/sign-in.component.ts:26-28 | the token and both inputs start empty |
| SignIn.SignInScreen.OnInit | src/app/sign-in/sign-in.component.ts:33-38 | the token is the stored one, or '' when none is stored; the screen redirects exactly when it is not '' |
| SignIn.SignInScreen.SignIn | src/app/sign-in/sign-in.component.ts:39-70 | an empty input stops first, then an email the regular expression rejects; otherwise a POST to `auth/login` whose body is exactly the email and the password |
| SignIn.SentLoginsAreWellFormed | src/app/sign-in/sign-in.component.ts:43-68 | a login is posted only with a non-empty password and an email matching the regular expression |
| Users.FormOf | src/app/users/users.component.ts:260-269 | editing a user copies id, name, email, phone, role and status, and leaves the password out of the form |
| Users.Payload | src/app/users/users.component.ts:113-121 | the body holds exactly name, email, password, phone, role, status and id; the password is undefined when the form has none |
| Users.Save | src/app/users/users.component.ts:129-178 | a stored id is PUT to `users/edit_user/<id>`, anything else POSTed to `users/addUser`; both carry the payload |
| Users.EditedUserKeepsPassword | src/app/users/users.component.ts:113-131 | saving an edited user updates it and its JSON carries no password, so the stored one is kept; saving a form with a password sends that password |
| Users.SaveFailureMessage | src/app/users/users.component.ts:155-166 | a failed save shows the server's text or "user not found" for 404, the fixed text for 401, and the edit or add text by the form's mode for unlisted statuses; never empty |
| Users.DisableFailureMessage | src/app/users/users.component.ts:323-334 | a failed disable shows the server's text or "invalid user id" for 400 and the disable text for unlisted statuses; never empty |
| Users.DisableUser | src/app/users/users.component.ts:291-301 | once confirmed, the PATCH to `users/disable_user/<id>` is sent exactly when a token is stored, and a missing token is reported instead |
| Users.UsersQuery | src/app/users/users.component.ts:359-369 | the query starts with page and limit and carries name and role exactly when they are filled in, with their values |
| Users.RoleText | src/app/users/users.component.ts:437-446 | 'A' reads administrator, 'S' staff, any other code as it is |
| Users.StatusText | src/app/users/users.component.ts:448-457 | '1' reads active, '2' disabled, any other code as it is |
| Users.NewScreen | src/app/users/users.component.ts:34-59 | the screen starts on page 1 of 5 rows with empty filters and the blank staff form with an empty password |
| Customers.FormOf | src/app/customers/customers.component.ts:252-261 | editing a customer copies all six fields unchanged |
| Customers.Payload | src/app/customers/customers.component.ts:110-117 | the body holds exactly name, phone, email, facebook, status and id, with the form's values |
| Customers.Save | src/app/customers/customers.component.ts:125-174 | a stored id is PUT to `customers/editCustomer/<id>`, anything else POSTed to `customers/addCustomer`; both carry the payload |
| Customers.SaveAfterResetOrEdit | src/app/customers/customers.component.ts:241-261 | after `resetForm()` a save creates a customer; after editing a stored customer it updates that customer with its own values |
| Customers.SaveFailureMessage | src/app/customers/customers.component.ts:151-162 | a failed save shows the server's text or the fallback for 404 and 500, and the edit or add text by the form's mode for unlisted statuses; never empty |
| Customers.DisableFailureMessage | src/app/customers/customers.component.ts:314-325 | a failed disable shows the server's text or "invalid customer id" for 400 and the disable text for unlisted statuses; never empty |
| Customers.DisableCustomer | src/app/customers/customers.component.ts:282-292 | once confirmed, the PATCH to `customers/disableCustomer/<id>` is sent exactly when a token is stored, and a missing token is reported instead |
| Customers.CustomersQuery | src/app/customers/customers.component.ts:349-363 | the query starts with page and limit and carries name, phone and facebook exactly when each is filled in, with its value |
| Customers.StatusText | src/app/customers/customers.component.ts:430-439 | '1' reads active, '2' disabled, any other code as it is |
| Customers.NewScreen | src/app/customers/customers.component.ts:33-57 | the screen starts on page 1 of 5 rows with empty search boxes and the blank active form |
| Reservations.Flatten | src/app/reservations/reservations.component.ts:356-373 | a row throws exactly when its customer or user is null or missing; otherwise the breeding and dog give their id, due date and name or null, the customer and user their id and name, the cancellation fields their value or null, and the note its value or '' |
| Reservations.FormOf | src/app/reservations/reservations.component.ts:287-289 | editing a reservation copies the row unchanged |
| Reservations.Payload | src/app/reservations/reservations.component.ts:212-224 | the body holds exactly the eleven fields; breeding, dog, cancellation fields and note are sent as their value or null, the rest as they are |
| Reservations.Save | src/app/reservations/reservations.component.ts:232-242 | a stored id is PUT to `reservation/updateReservation/<id>`, anything else POSTed to `reservation/addReservation`; both carry the payload |
| Reservations.SaveOfListedReservation | src/app/reservations/reservations.component.ts:212-224 | saving a listed reservation unchanged sends back the values it was listed with; only a missing note, listed as '', goes back as null |
| Reservations.SaveAfterReset | src/app/reservations/reservations.component.ts:270-284 | after `resetForm()` a save creates a booked reservation with no breeding, dog, cancellation reason or note |
| Reservations.DisableReservation | src/app/reservations/reservations.component.ts:308-316 | once confirmed the PATCH to `reservation/disableReservation/<id>` is always sent: this screen does not check for a token |
| Reservations.ReservationsQuery | src/app/reservations/reservations.component.ts:336-342 | the query starts with page and limit and carries cusName, status and depositStatus exactly when each is chosen, with its value |
| Reservations.StatusText | src/app/reservations/reservations.component.ts:450-457 | booked, cancelled, awaiting refund and sold for '1'-'4', any other code as it is |
| Reservations.DashOrLabel | src/app/reservations/reservations.component.ts:459-474 | a missing or empty code reads '-', any other code its label or itself |
| Reservations.CancelReasonText | src/app/reservations/reservations.component.ts:459-465 | '-' without a reason, the two labelled reasons, any other reason as it is |
| Reservations.DepositStatusText | src/app/reservations/reservations.component.ts:467-474 | '-' without a deposit status, the three labels, any other code as it is |
| Reservations.NewScreen | src/app/reservations/reservations.component.ts:53-90 | the screen starts on page 1 of 5 rows with empty filters and the blank booked form |
| Reservations.LoadSucceeded | src/app/reservations/reservations.component.ts:354-376 | when every row flattens the list holds the flattened rows in order with the total and page count; when a row throws nothing is assigned, rows, totals and loading flag unchanged; page, page size and filters are untouched |
| TreatmentRecords.Flatten | src/app/treatment-records/treatment-records.component.ts:333-346 | a row throws exactly when its treatment, dog, vet or user is null or missing; otherwise each becomes its id and name, and the dates and status are kept |
| TreatmentRecords.FormOf | src/app/treatment-records/treatment-records.component.ts:265-267 | editing a record copies the row unchanged |
| TreatmentRecords.Payload | src/app/treatment-records/treatment-records.component.ts:198-206 | the body holds exactly the four ids, both dates and the status; an empty end date is sent as null |
| TreatmentRecords.Save | src/app/treatment-records/treatment-records.component.ts:214-224 | a stored id is PUT to `treatmentRecord/updateTreatmentRecord/<id>`, anything else POSTed to `treatmentRecord/addTreatmentRecord`; both carry the payload |
| TreatmentRecords.SaveAfterResetOrEdit | src/app/treatment-records/treatment-records.component.ts:252-267 | a save after `resetForm()` creates a record whose end date is null; a listed record saved unchanged sends back its own ids and its end date or null |
| TreatmentRecords.DisableTreatmentRecord | src/app/treatment-records/treatment-records.component.ts:286-294 | once confirmed the PATCH to `treatmentRecord/disableTreatmentRecord/<id>` is always sent: this screen does not check for a token |
| TreatmentRecords.TreatmentRecordsQuery | src/app/treatment-records/treatment-records.component.ts:314-319 | the query starts with page and limit and carries dogName and status exactly when each is chosen, with its value |
| TreatmentRecords.StatusText | src/app/treatment-records/treatment-records.component.ts:423-430 | under treatment, recovered, died and deleted for '1'-'4', any other code as it is |
| TreatmentRecords.NewScreen | src/app/treatment-records/treatment-records.component.ts:49-81 | the screen starts on page 1 of 5 rows with empty filters and the blank form under treatment |
| TreatmentRecords.LoadSucceeded | src/app/treatment-records/treatment-records.component.ts:331-350 | when every row flattens the list holds the flattened rows in order with the total and page count; when a row throws nothing is assigned, rows, totals and loading flag unchanged; page, page size and filters are untouched |
| DogHealthChecks.Flatten | src/app/dog-health-checks/dog-health-checks.component.ts:324-337 | a row throws exactly when its dog, check-list entry or vet is null or missing; otherwise each becomes its id and name, a missing note becomes '', and the dates, status and result are kept |
| DogHealthChecks.FormOf | src/app/dog-health-checks/dog-health-checks.component.ts:255-257 | editing a check copies the row unchanged |
| DogHealthChecks.Payload | src/app/dog-health-checks/dog-health-checks.component.ts:185-194 | the body holds exactly the three ids, both dates, notes, status and result; an empty actual date is sent as null |
| DogHealthChecks.Save | src/app/dog-health-checks/dog-health-checks.component.ts:202-212 | a stored id is PUT to `dogHealthCheck/updateDogHealthCheck/<id>`, anything else POSTed to `dogHealthCheck/addDogHealthCheck`; both carry the payload |
| DogHealthChecks.SaveAfterResetOrEdit | src/app/dog-health-checks/dog-health-checks.component.ts:241-257 | a save after `resetForm()` creates a scheduled, pending check with a null actual date; a listed check saved unchanged sends back its own ids and never a null note |
| DogHealthChecks.DisableDogHealthCheck | src/app/dog-health-checks/dog-health-checks.component.ts:276-284 | once confirmed the PATCH to `dogHealthCheck/disableDogHealthCheck/<id>` is always sent: this screen does not check for a token |
| DogHealthChecks.DogHealthChecksQuery | src/app/dog-health-checks/dog-health-checks.component.ts:304-310 | the query starts with page and limit and carries dogName, status and result exactly when each is chosen, with its value |
| DogHealthChecks.StatusText | src/app/dog-health-checks/dog-health-checks.component.ts:414-421 | scheduled, done, cancelled and deleted for '1'-'4', any other code as it is |
| DogHealthChecks.ResultText | src/app/dog-health-checks/dog-health-checks.component.ts:423-429 | pending, normal and abnormal for '1'-'3', any other code as it is |
| DogHealthChecks.NewScreen | src/app/dog-health-checks/dog-health-checks.component.ts:49-82 | the screen starts on page 1 of 5 rows with empty filters and the blank scheduled, pending form |
| DogHealthChecks.LoadSucceeded | src/app/dog-health-checks/dog-health-checks.component.ts:322-341 | when every row flattens the list holds the flattened rows in order with the total and page count; when a row throws nothing is assigned, rows, totals and loading flag unchanged; page, page size and filters are untouched |

## Left out

- Asynchrony. HTTP calls are modelled as the request they send. A response or failure is an
  input to the callback method that handles it. Overlapping loads and the order in which
  replies arrive are not modelled.
- Confirmation dialogs become a `confirmed` flag. Toasts and success dialogs are not modelled,
  and neither are `closeModal` and the other DOM work.
- Browser and library calls are not modelled:
  - `localStorage` becomes a token parameter;
  - `jwtDecode`, `location.reload` and router navigation are left out;
  - the sign-in success callback stores the decoded token and reloads, which is left out.
- The dropdown loaders only fetch and assign, so they are not modelled. They fill the colour,
  breeding, father, mother, dog, vet, clinic, customer, user, vaccine and position choices,
  and the dog data of the position screen.
- The reservation PDF download (`generatePDF`) is a blob download into the DOM; it is not modelled.
- `config.ts` is not part of this model. Paths are written relative to `config.apiServer`. The
  profile-image base URL is the value the dog list uses.
- Numbers are integers plus `NaN`. Floating point is left out:
  - `Math.ceil(total / pageSize)` is integer ceiling division with a page size of at least 1;
  - `JSON.stringify(NaN)` writing `null` is not modelled.
- Object keys are looked up in the object's own members only. A code such as `toString`, which
  a JavaScript object literal would find on its prototype in `map[code] || code`, is echoed.
- JSON bodies are maps, so the order of their keys is not modelled. The multipart bodies of the
  dog screens are sequences, in the order the entries are appended.
- `URL.createObjectURL` gives one fixed URL per file, so previews are compared by file. Revoking
  the URLs is not modelled.
- The file fields of the dog add and edit screens are grouped into records: picked files, stored
  files and delete flags. Each method states the whole new record.
- Vaccinations.VaccinationForms.AddDose: a record whose `doses` is missing (`doses || []` at
  src/app/vaccinations/vaccinations.component.ts:665) is modelled as one with no doses.
- Vaccinations.VaccinationForms.EditVaccination: the form's doses are a value copy, so aliasing
  between the form and the listed record is not modelled.
- `getDoseButtonClass` reads the clock and is not modelled.
- The current year the position form defaults to is a parameter of
  ManagePosition.PositionScreen.constructor and ManagePosition.PositionScreen.ResetForm.
- EditDog.EditDogScreen.Valid and AddDogs.AddDogScreen.Valid state only that previews match the
  picked files. That the form holds exactly the eighteen keys is proved separately, of every form
  the screens assign, by EditDog.FormsAreDogForms and AddDogs.NewDogFormIsDogForm.
- Form validity checks in `onSubmit` are Angular template validation and are not modelled. The
  model starts at `save()`.
- Console logging is not modelled.

## Findings

| source | as written | input that shows it | evidently intended | confidence | as-written member | corrected member |
|---|---|---|---|---|---|---|
| src/app/dogs/edit-dog/edit-dog.component.ts:209 | new show pictures are cut to `slice(0, 4 - existingShowImages.length)` | a dog with 5 stored show pictures (the add screen has no cap) and 3 picked files: `slice(0, -1)` keeps 2, so 7 pictures in total | at most 4 show pictures in total, so no new picture once 4 or more are stored | not executed | EditDog.ShowFilesKeptAsWritten, EditDog.AsWrittenExceedsCap, EditDog.AsWrittenFiveStoredThreePicked | EditDog.CappedShowFiles, EditDog.CappedAgreesUpToCap |
