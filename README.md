# CRM-Narcis in Dafny

This project models the core of CRM-Narcis, a management dashboard for an educational
business. The business runs courses for children in schools and hubs. The project covers
two sides.

The back end is a FastAPI service with one table per entity: partner institutions,
sales leads, contracts, teachers, courses, students, groups, sessions, clients and
invoices. Its handlers create, list, read, edit and delete rows.
- `Backend.Server` is a class with one field per table. A table is a sequence of
  (id, row) entries with strictly increasing ids (module `Tables`).
- Each handler is a method. It either answers with the record or fails with "not found"
  (HTTP 404) and the handler's own message.
- Deleting a row sets to NULL the foreign key of every row that references it, as the ORM
  does for a relationship without a delete cascade. Stored contracts, groups and sessions
  therefore hold optional keys. The contract, group and session listings answer with a 500
  when a row on the page has lost a key that its response schema requires.
- A group's payer kind is free text in the request but an enum column in the database. A
  kind outside `TipPlataGrupa` is stored, and then cannot be read back: the create or
  update answers with a 500, and so does every group listing that holds the row.
- Request validation is modelled by the `Schemas` module. It fills in the declared
  defaults and accepts only the enumeration values of `Enums`.

The front end is a set of Next.js pages and dialogs.
- The pages resolve foreign keys to names with fixed fallbacks (module `Lookup`). They
  pick badge colours and labels from status strings.
- The attendance catalog edits its list of rows in place and computes attendance stats,
  initials and avatar colours.
- The students page computes ages from birth dates (module `Calendar`).
- Each dialog turns its form into a request body and back. After the server answers it
  resets, keeps or alerts.
- Dialogs whose state changes are classes with `open` and `form` fields. Purely
  functional dialogs are functions from the record to the form, and from the form to the
  body.

JavaScript semantics the pages rely on are written out in `Text`, `Lookup` and `Forms`:
- `parseInt` has NaN as `None`: leading white space, a sign, the `0x` prefix, and
  stopping at the first non-digit.
- `Number.prototype.toString` on integers.
- `split` on one character and `substring(0, n)`.
- `a || b` on strings, where the empty string is falsy.
- `${undefined}`.
- `Array.prototype.find`.
- The truncating `%`.

A server reply is an input to the model: `Ok`, `NotOk` (a non-ok HTTP status) or
`Thrown` (the fetch threw). The clock that stamps `created_at` is a parameter. So is
today's date on the students page.

## Model

| member | source | states |
|---|---|---|
| Tables.Find | crm_backend/main.py:70 | the row found under an id is absent exactly when no entry has that id; otherwise it is stored under it |
| Tables.FindAt | crm_backend/main.py:70 | in a valid table, looking up the id at position i gives the row at position i |
| Tables.NextId | crm_backend/main.py:56-58 | the id a new row receives is positive and above every id in the table |
| Tables.Insert | crm_backend/main.py:56-58 | an insert keeps the old entries, appends the row under the next id, and keeps the table valid |
| Tables.InsertFind | crm_backend/main.py:56-58 | after an insert, the new id finds the new row and every other id finds what it found before |
| Tables.Replace | crm_backend/main.py:83-90 | an edit changes only the row stored under the id; ids and other rows stay |
| Tables.ReplaceFind | crm_backend/main.py:83-90 | after an edit the table is still valid, the id finds the new row, and other ids are unaffected |
| Tables.Remove | crm_backend/main.py:101-102 | after a delete no entry has the id, and every remaining entry was in the table |
| Tables.RemoveKeeps | crm_backend/main.py:101-102 | a delete does not change what any other id finds |
| Tables.RemoveValid | crm_backend/main.py:101-102 | a delete keeps ids positive and increasing |
| Tables.RemoveAbsent | crm_backend/main.py:101-102 | deleting an id that is not there leaves the table as it was |
| Tables.RemoveLength | crm_backend/main.py:101-102 | deleting a present id removes exactly one entry |
| Tables.RemoveFind | crm_backend/main.py:95-103 | a delete removes exactly the row under the id, one entry when present, and keeps every other id's row |
| Tables.PageStart | crm_backend/main.py:64 | the listing starts inside the table; a negative offset counts as 0 |
| Tables.Page | crm_backend/main.py:62-65 | a listing is the contiguous run of rows from the offset; it has at most `limit` rows, or runs to the end when the limit is negative |
| Tables.DefaultPage | crm_backend/main.py:63 | the default listing (skip 0, limit 100) is the first hundred rows |
| Tables.PagesConcatenate | crm_backend/main.py:64 | consecutive pages join into one page without gap or overlap |
| Enums.ParseStatusLead | crm_backend/models.py:11-17 | a string is accepted exactly when it is the value of a lead stage, and it decodes to that stage |
| Enums.StatusLead.Value | crm_backend/models.py:11-17 | each lead stage is sent as its value string, a non-empty lower-case word with underscores; ParseStatusLead reads it back |
| Enums.ParseTipInstitutie | crm_backend/models.py:19-24 | institution kinds: accepted exactly for the five values, and decoded to the matching kind |
| Enums.TipInstitutie.Value | crm_backend/models.py:19-24 | each institution kind is sent as its value string, a non-empty lower-case word with underscores; ParseTipInstitutie reads it back |
| Enums.ParseStatusPartener | crm_backend/models.py:26-30 | partner statuses: accepted exactly for the four values |
| Enums.StatusPartener.Value | crm_backend/models.py:26-30 | each partner status is sent as its value string, a non-empty lower-case word with underscores; ParseStatusPartener reads it back |
| Enums.ParseTipContractHR | crm_backend/models.py:32-36 | teacher contract kinds: accepted exactly for the four values |
| Enums.TipContractHR.Value | crm_backend/models.py:32-36 | each teacher contract kind is sent as its value string, a non-empty lower-case word with underscores; ParseTipContractHR reads it back |
| Enums.ParseStatusFactura | crm_backend/models.py:38-44 | invoice statuses: accepted exactly for the six values |
| Enums.StatusFactura.Value | crm_backend/models.py:38-44 | each invoice status is sent as its value string, a non-empty lower-case word with underscores; ParseStatusFactura reads it back |
| Enums.ParseTipMiscareStoc | crm_backend/models.py:46-50 | stock movement kinds: accepted exactly for the four values |
| Enums.TipMiscareStoc.Value | crm_backend/models.py:46-50 | each stock movement kind is sent as its value string, a non-empty lower-case word with underscores; ParseTipMiscareStoc reads it back |
| Enums.ParseStatusSesiune | crm_backend/models.py:52-55 | session statuses: accepted exactly for the three values |
| Enums.StatusSesiune.Value | crm_backend/models.py:52-55 | each session status is sent as its value string, a non-empty lower-case word with underscores; ParseStatusSesiune reads it back |
| Enums.ParseStatusInscriere | crm_backend/models.py:57-60 | enrolment statuses: accepted exactly for the three values |
| Enums.StatusInscriere.Value | crm_backend/models.py:57-60 | each enrolment status is sent as its value string, a non-empty lower-case word with underscores; ParseStatusInscriere reads it back |
| Enums.ParseStatusGrupa | crm_backend/models.py:62-66 | group statuses: accepted exactly for the four values |
| Enums.StatusGrupa.Value | crm_backend/models.py:62-66 | each group status is sent as its value string, a non-empty lower-case word with underscores; ParseStatusGrupa reads it back |
| Enums.ParseTipClient | crm_backend/models.py:68-70 | client kinds: accepted exactly for the two values |
| Enums.TipClient.Value | crm_backend/models.py:68-70 | each client kind is sent as its value string, a non-empty lower-case word with underscores; ParseTipClient reads it back |
| Enums.ParseModCalculPret | crm_backend/models.py:72-76 | pricing modes: accepted exactly for the four values |
| Enums.ModCalculPret.Value | crm_backend/models.py:72-76 | each pricing mode is sent as its value string, a non-empty lower-case word with underscores; ParseModCalculPret reads it back |
| Enums.ParseTipPlataGrupa | crm_backend/models.py:78-81 | group payer kinds: accepted exactly for the three values |
| Enums.TipPlataGrupa.Value | crm_backend/models.py:78-81 | each group payer kind is sent as its value string, a non-empty lower-case word with underscores; ParseTipPlataGrupa reads it back |
| Schemas.DecodePartener | crm_backend/schemas.py:13-23 | a partner body is accepted iff its kind and any given status are enum values; an omitted status becomes "potential" |
| Schemas.DecodeLead | crm_backend/schemas.py:35-43 | a lead body is accepted iff any given status is a lead stage; an omitted status becomes "nou"; partner and campaign ids carry over |
| Schemas.DecodeContract | crm_backend/schemas.py:54-64 | a contract body is accepted iff any given pricing mode is an enum value; it defaults to lump-sum pricing and currency RON; a given pricing mode and currency are the ones sent; the name, value, status, three dates, partner id and lead id carry over |
| Schemas.DecodeProfesor | crm_backend/schemas.py:77-85 | a teacher body defaults to contract "cim", rate 0 and active; any given contract kind must be an enum value and is the one sent; a given rate, null included, is kept; the name, e-mail, phone, start date and note carry over |
| Schemas.DecodeCurs | crm_backend/schemas.py:97-104 | omitted course fields become "General", "Incepator", 6 and 18; given ones, null included, are kept |
| Schemas.DecodeElev | crm_backend/schemas.py:116-124 | an omitted GDPR consent is false; note and birth date carry over |
| Schemas.DecodeGrupa | crm_backend/schemas.py:138-148 | omitted max_copii becomes 10 and omitted status "planificata"; given ones are the ones sent, and a given status must be an enum value; the payer kind is an unrestricted string |
| Schemas.DecodeSesiune | crm_backend/schemas.py:162-171 | an omitted session status becomes "planificata"; the given duration, or null, is kept |
| Schemas.DecodeFactura | crm_backend/schemas.py:185-192 | an omitted currency becomes "RON" and an omitted status "draft"; a given status must be an invoice status |
| Schemas.FacturaUnknownStatusRejected | crm_backend/schemas.py:191 | an invoice body whose status is none of the enum's values is rejected |
| Backend.NewPartener | crm_backend/main.py:43-59 | a new partner stores each of the request's ten fields and the creation time |
| Backend.UpdatedPartener | crm_backend/main.py:83-87 | an edit overwrites name, kind, city, phone and e-mail; address, fiscal code, contact, status, note and creation time stay |
| Backend.UpdatedPartenerIdempotent | crm_backend/main.py:83-87 | the same edit applied twice is the edit applied once |
| Backend.NewLead | crm_backend/main.py:116-124 | a new lead stores the partner, the contact name, phone and e-mail, the stage, the source and the note of the request, but not its campaign |
| Backend.UpdatedLead | crm_backend/main.py:144-150 | an edited lead takes every field from the request except the campaign, which stays |
| Backend.NewContract | crm_backend/main.py:178-184 | a new contract takes name, value, signing date, status and partner (stored as a present key); no lead or dates, lump-sum pricing and RON |
| Backend.UpdatedContract | crm_backend/main.py:204-208 | an edited contract takes the same five fields; lead, dates, pricing mode and currency stay |
| Backend.ContractOut | crm_backend/schemas.py:54-71 | a stored contract fits the response schema exactly when it still has a partner, and then every field carries over |
| Backend.ContractOutOfStored | crm_backend/main.py:178-208 | a contract just created or edited fits the response schema, with the request's partner |
| Backend.GrupaRow | crm_backend/main.py:397-442 | a group is stored with its course and teacher keys present; it reads back through the schema as the request iff its payer kind is a `TipPlataGrupa` value |
| Backend.GrupaOut | crm_backend/schemas.py:138-157 | a stored group reads back through the response schema exactly when its course and teacher keys are present and its payer kind is a value of the enum column (models.py:273), and then every field carries over |
| Backend.GrupaRowOfOut | crm_backend/schemas.py:138-157 | a stored group that fits the schema is what storing that response would store |
| Backend.SessionDuration | crm_backend/main.py:461-464 | a given non-zero duration is kept; otherwise the duration is (end - start) in hours |
| Backend.SessionRow | crm_backend/main.py:466-476 | a stored session has its group and teacher keys present and reads back through the schema as the request with only the duration filled in |
| Backend.SesiuneOut | crm_backend/schemas.py:162-180 | a stored session fits the response schema exactly when its group and teacher keys are present, and then every field carries over |
| Backend.SessionDurationPresent | crm_backend/main.py:461-464 | a stored duration is never null, and it is computed as zero only when start equals end |
| Backend.SessionRowIdempotent | crm_backend/main.py:495-498 | a stored session read back and sent unchanged is stored unchanged: filling in the duration twice changes nothing more |
| Backend.FindClientByName | crm_backend/main.py:532 | the client found is the first in table order with the display name; none is found iff no client has it |
| Backend.FindOrCreateClient | crm_backend/main.py:532-541 | an existing client with the name is reused; otherwise a partner-kind client with that name is appended under the next id |
| Backend.FindOrCreateIdempotent | crm_backend/main.py:606-611 | looking a name up again after a find-or-create changes nothing and yields the same id |
| Backend.FindOrCreateAddsAtMostOne | crm_backend/main.py:532-541 | find-or-create keeps the table valid and its old entries; it adds one client exactly when none had the name, else none |
| Backend.FindOrCreateNamesClient | crm_backend/main.py:532-541 | the id handed out names a stored client with exactly the requested name |
| Backend.ClientName | crm_backend/main.py:580-583 | an invoice is listed under its client's name, or "Client Necunoscut" when the client id is null, 0 or unknown |
| Backend.ViewWith | crm_backend/main.py:559-569 | the invoice returned after a create carries the given client name and every other field of the stored invoice |
| Backend.InvoiceView | crm_backend/main.py:585-595 | a listing entry keeps the invoice's id, number, dates, total, currency, status and creation time, with the name of its client |
| Backend.NewFactura | crm_backend/main.py:544-553 | a new invoice links the found or created client and month 1; number, issue and due dates, total, currency and status come from the request |
| Backend.UpdatedFactura | crm_backend/main.py:613-618 | an edited invoice relinks the client and takes number, dates, total and status; currency, month and creation time stay |
| Backend.CreatedInvoiceListedUnderName | crm_backend/main.py:529-596 | an invoice created for a client name is listed under that name |
| Backend.LeadsOffPartener | crm_backend/models.py:124 | after a partner is deleted no lead names it; only the partner key of the leads that named it changes, to NULL |
| Backend.ContractsOffPartener | crm_backend/models.py:125 | after a partner is deleted no contract names it; only the partner key of the contracts that named it changes, to NULL |
| Backend.GrupeOffContract | crm_backend/models.py:183 | after a contract is deleted no group names it; only the contract key of its groups changes, to NULL |
| Backend.GrupeOffProfesor | crm_backend/models.py:205 | after a teacher is deleted no group names it; only the teacher key of its groups changes, to NULL |
| Backend.SesiuniOffProfesor | crm_backend/models.py:207 | after a teacher is deleted no session names it; only the teacher key of its sessions changes, to NULL |
| Backend.GrupeOffCurs | crm_backend/models.py:223 | after a course is deleted no group names it; only the course key of its groups changes, to NULL |
| Backend.SesiuniOffGrupa | crm_backend/models.py:280 | after a group is deleted no session names it; only the group key of its sessions changes, to NULL |
| Backend.GrupaListingFailsAfterUnknownPayer | crm_backend/models.py:273 | a group stored with a payer kind outside `TipPlataGrupa` makes the default group listing a 500 while it is among the first hundred groups |
| Backend.ContractListingFailsAfterPartnerDelete | crm_backend/schemas.py:63 | once a partner with a contract among the first hundred is deleted, the default contract listing is a 500, because that contract's partner id is NULL and the schema requires an integer |
| Backend.LeadPartnerOk | crm_backend/main.py:111-114 | a stored partner passes; a negative id, which names no row of a valid table, fails; a failing positive id names no stored partner |
| Backend.Server.constructor | crm_backend/main.py:13 | the server starts with every table empty, which meets the invariant: valid tables and no contract naming a lead |
| Backend.Server.CreatePartener | crm_backend/main.py:42-59 | appends the new partner under the next id and returns it; only the partner table changes |
| Backend.Server.ReadParteneri | crm_backend/main.py:62-65 | returns the page of partners for skip and limit |
| Backend.Server.ReadPartener | crm_backend/main.py:68-73 | returns the partner under the id, or 404 "Partenerul nu a fost gasit" |
| Backend.Server.UpdatePartener | crm_backend/main.py:76-92 | a missing id gives 404 with the table unchanged; otherwise only that row becomes the edited partner |
| Backend.Server.DeletePartener | crm_backend/main.py:95-103 | a missing id gives 404 and changes no table; otherwise exactly that row is removed, and the leads and contracts that named it lose their partner key |
| Backend.Server.CreateLead | crm_backend/main.py:110-128 | a non-zero partner id that names no partner gives 404 and inserts nothing; otherwise the lead is appended |
| Backend.Server.ReadLeaduri | crm_backend/main.py:131-134 | returns the page of leads; at most `limit` of them |
| Backend.Server.UpdateLead | crm_backend/main.py:138-154 | a missing id gives 404; otherwise the row is edited, and the partner is not checked |
| Backend.Server.DeleteLead | crm_backend/main.py:158-165 | a missing id gives 404 with the table unchanged; otherwise exactly that row is removed; the invariant that no contract names a lead keeps the contracts as they are |
| Backend.Server.CreateProfesor | crm_backend/main.py:230-244 | appends the validated teacher under the next id |
| Backend.Server.ReadProfesori | crm_backend/main.py:248-249 | returns the page of teachers |
| Backend.Server.UpdateProfesor | crm_backend/main.py:253-269 | a missing id gives 404; otherwise the row becomes the request |
| Backend.Server.DeleteProfesor | crm_backend/main.py:273-280 | a missing id gives 404 and changes no table; otherwise exactly that row is removed, and the groups and sessions that named it lose their teacher key |
| Backend.Server.CreateCurs | crm_backend/main.py:286-299 | appends the validated course under the next id |
| Backend.Server.ReadCursuri | crm_backend/main.py:303-304 | returns the page of courses |
| Backend.Server.UpdateCurs | crm_backend/main.py:308-323 | a missing id gives 404; otherwise the row becomes the request |
| Backend.Server.DeleteCurs | crm_backend/main.py:327-334 | a missing id gives 404 and changes no table; otherwise exactly that row is removed, and the groups that named it lose their course key |
| Backend.Server.CreateElev | crm_backend/main.py:341-355 | appends the validated student under the next id |
| Backend.Server.ReadElevi | crm_backend/main.py:359-360 | returns the page of students |
| Backend.Server.UpdateElev | crm_backend/main.py:364-380 | a missing id gives 404; otherwise the row becomes the request, note included |
| Backend.Server.DeleteElev | crm_backend/main.py:384-391 | a missing id gives 404; otherwise exactly that row is removed |
| Backend.Server.CreateGrupa | crm_backend/main.py:397-413 | appends the group under the next id, with its keys present, whatever its payer kind; answers with it, or with a 500 when the payer kind is not a `TipPlataGrupa` value and cannot be read back |
| Backend.Server.ReadGrupe | crm_backend/main.py:416-420 | the page of groups through the response schema, or a 500 when a group on it has lost its course or teacher or holds an unknown payer kind |
| Backend.Server.UpdateGrupa | crm_backend/main.py:424-442 | a missing id gives 404; otherwise the row becomes the request, with its keys present again, and the answer is that row, or a 500 when its payer kind is not a `TipPlataGrupa` value |
| Backend.Server.DeleteGrupa | crm_backend/main.py:446-453 | a missing id gives 404 and changes no table; otherwise exactly that row is removed, and the sessions that named it lose their group key |
| Backend.Server.CreateSesiune | crm_backend/main.py:459-480 | appends the session with its duration filled in |
| Backend.Server.ReadSesiuni | crm_backend/main.py:483-485 | the page of sessions through the response schema, or a 500 when a session on it has lost its group or teacher |
| Backend.Server.UpdateSesiune | crm_backend/main.py:489-512 | a missing id gives 404; otherwise the row becomes the request with its duration filled in |
| Backend.Server.DeleteSesiune | crm_backend/main.py:516-523 | a missing id gives 404; otherwise exactly that row is removed |
| Backend.Server.CreateContract | crm_backend/main.py:172-188 | appends the new contract under the next id |
| Backend.Server.ReadContracte | crm_backend/main.py:191-193 | the page of contracts through the response schema, or a 500 when a contract on it has lost its partner |
| Backend.Server.UpdateContract | crm_backend/main.py:197-212 | a missing id gives 404; otherwise only that row becomes the edited contract |
| Backend.Server.DeleteContract | crm_backend/main.py:216-223 | a missing id gives 404 and changes no table; otherwise exactly that row is removed, and the groups that named it lose their contract key |
| Backend.Server.CreateFactura | crm_backend/main.py:529-570 | finds or creates the client by name, appends the invoice linked to it, and answers with the client's name |
| Backend.Server.ReadFacturi | crm_backend/main.py:574-596 | one entry per invoice of the page, in table order, each with its client's name or the fallback |
| Backend.Server.UpdateFactura | crm_backend/main.py:600-633 | a missing invoice gives 404 and changes no table; otherwise the client is found or created and only that invoice is edited |
| Backend.Server.DeleteFactura | crm_backend/main.py:637-644 | a missing id gives 404; otherwise exactly that row is removed |
| Text.IntToString | crm_frontend/components/EditGrupaDialog.tsx:29-32 | `toString` of an integer starts with a digit exactly when it is non-negative, and with "-" exactly when negative |
| Text.NatToStringValue | crm_frontend/components/EditGrupaDialog.tsx:29-32 | the digits of `toString` read back as the number |
| Text.TrimStart | crm_frontend/components/EditGrupaDialog.tsx:60-63 | `parseInt` skips exactly the leading white space |
| Text.DigitPrefix | crm_frontend/components/EditGrupaDialog.tsx:60-63 | `parseInt` reads the longest run of digits and stops at the first non-digit |
| Text.ParseInt | crm_frontend/components/EditGrupaDialog.tsx:60-63 | `parseInt` of a text made only of white space, the empty text included, is NaN |
| Text.ParseIntNegativeNeedsMinus | crm_frontend/components/EditGrupaDialog.tsx:60-63 | a negative result needs a minus sign right after the leading white space |
| Text.ParseIntOfIntToString | crm_frontend/components/EditGrupaDialog.tsx:29-32 | `parseInt(n.toString())` is n for every integer: the round trip of the numeric form fields |
| Text.ParseIntOfEmpty | crm_frontend/components/StockMovementDialog.tsx:33 | `parseInt("")` is NaN |
| Text.Split | crm_frontend/app/catalog/page.tsx:112 | `split` yields at least one piece, two or more exactly when the separator occurs; the first piece is the text before the first separator |
| Text.SplitWithoutSeparator | crm_frontend/components/EditSesiuneDialog.tsx:26 | a string without the separator splits into itself |
| Text.SplitAtFirst | crm_frontend/components/EditSesiuneDialog.tsx:26-28 | the first piece of a split is everything before the first separator |
| Text.Prefix | crm_frontend/components/EditSesiuneDialog.tsx:27-28 | `substring(0, n)` is the first min(n, length) characters |
| Text.Upper | crm_frontend/app/catalog/page.tsx:112 | `toUpperCase` maps every character and keeps the length |
| Text.Lower | crm_frontend/app/contracte/page.tsx:51 | `toLowerCase` maps every character and keeps the length |
| Text.LowerIdempotent | crm_frontend/app/contracte/page.tsx:51 | lower-casing twice is lower-casing once |
| Calendar.FormatIsoDate | crm_backend/schemas.py:118 | a date is sent as ten characters `YYYY-MM-DD` |
| Calendar.ParseIsoDate | crm_frontend/app/elevi/page.tsx:35 | only a ten-character `YYYY-MM-DD` naming a real calendar day, year 0000 included, is read as a date |
| Calendar.ParseServerDate | crm_backend/schemas.py:118 | the server reads a date iff it is such a day of the years 1 to 9999, and then reads that day |
| Calendar.ServerDateRoundTrip | crm_backend/schemas.py:118 | the server reads back the sent form of every date of the years 1 to 9999 |
| Calendar.ServerRejectsYearZeroText | crm_backend/schemas.py:118 | no text whose first four characters are "0000" is a date to the server |
| Calendar.ServerDateRejectsYearZero | crm_backend/schemas.py:118 | "0000-01-01" names a day for the page but is not a date for the server |
| Calendar.Age | crm_frontend/app/elevi/page.tsx:37-39 | the age is the difference of the years when this year's birthday is on or before today, and one less otherwise |
| Calendar.ParseFormat | crm_frontend/app/elevi/page.tsx:35 | reading the form in which the server sends a date gives the date back |
| Calendar.FormatParse | crm_frontend/app/elevi/page.tsx:35 | a text that reads as a date is exactly the form in which the server sends that date |
| Calendar.AgeIsCompletedYears | crm_frontend/app/elevi/page.tsx:37-40 | the age is the number of completed years: that anniversary is on or before today and the next is after |
| Calendar.AgeOnBirthday | crm_frontend/app/elevi/page.tsx:38 | on the birthday the age is the difference of the years |
| Calendar.AgeOnDayBefore | crm_frontend/app/elevi/page.tsx:38 | on the day before the birthday it is one less |
| Calendar.AgeNonNegative | crm_frontend/app/elevi/page.tsx:37-40 | for a birth date not after today the age is not negative |
| Calendar.AgeMonotone | crm_frontend/app/elevi/page.tsx:37-40 | the age never decreases as today advances |
| EleviPage.VarstaLabel | crm_frontend/app/elevi/page.tsx:33-42 | an empty or null birth date shows "-"; an unreadable one "NaN ani"; otherwise the age followed by " ani" |
| EleviPage.LabelOfStoredDate | crm_frontend/app/elevi/page.tsx:33-42 | a date as the API sends it shows its calendar age |
| EleviPage.LabelOfBornStudent | crm_frontend/app/elevi/page.tsx:37-41 | for a student born by today the label starts with a digit, never a minus sign |
| Lookup.FirstMatch | crm_frontend/app/grupe/page.tsx:55 | `find` yields nothing iff no element matches; otherwise a matching element |
| Lookup.FirstMatchAt | crm_frontend/app/grupe/page.tsx:55 | `find` yields the element at the first matching position |
| Lookup.OrElse | crm_frontend/app/grupe/page.tsx:55 | `s \|\| fallback` is the fallback for null and "", and s otherwise |
| Lookup.NameOf | crm_frontend/app/grupe/page.tsx:55 | optional chaining yields a name exactly when there is an element |
| Lookup.Interpolate | crm_frontend/components/EditSesiuneDialog.tsx:57-58 | a missing value interpolates as "undefined" |
| Lookup.NameById | crm_frontend/app/grupe/page.tsx:55-56 | the name of the first element with the id, with the fallback when that name is empty or no element has the id |
| GrupePage.CursName | crm_frontend/app/grupe/page.tsx:55 | the first course with the id names the group's course; otherwise "Necunoscut" |
| GrupePage.ProfName | crm_frontend/app/grupe/page.tsx:56 | the first teacher with the id; otherwise "Fără Profesor" |
| GrupePage.ContractName | crm_frontend/app/grupe/page.tsx:57-60 | "-" for a null or 0 id; else the first contract with the id, or "ID Inexistent" |
| GrupePage.ContractCell | crm_frontend/app/grupe/page.tsx:110 | "Direct" when the group has no contract; otherwise the contract's name |
| GrupePage.ContractCellNeverDash | crm_frontend/app/grupe/page.tsx:57-60 | the "-" branch of the contract name never reaches the cell (the cell itself is line 110) |
| GrupePage.Payer | crm_frontend/app/grupe/page.tsx:103-106 | the badge is B2B exactly for "plateste_scoala" |
| GrupePage.PayerOfKinds | crm_frontend/app/grupe/page.tsx:103-106 | of the three payer kinds only the school shows B2B; "mixt" shows B2C |
| GrupePage.PayerLabel | crm_frontend/app/grupe/page.tsx:104-105 | B2B reads "B2B (Școală)" and B2C reads "B2C (Părinți)", and neither reads the other's text |
| GrupePage.StatusColor | crm_frontend/app/grupe/page.tsx:115-116 | emerald exactly for "activa", slate exactly for "incheiata", blue for anything else |
| GrupePage.StatusColorOfStates | crm_frontend/app/grupe/page.tsx:115-116 | of the group statuses, planned and cancelled groups both show blue |
| SesiuniPage.GrupaName | crm_frontend/app/sesiuni/page.tsx:43 | the first group with the id; otherwise "Grupă Ștearsă" |
| SesiuniPage.ProfName | crm_frontend/app/sesiuni/page.tsx:44 | the first teacher with the id; otherwise "-" |
| SesiuniPage.SalaCell | crm_frontend/app/sesiuni/page.tsx:95 | an empty room shows "N/A" |
| SesiuniPage.TemaCell | crm_frontend/app/sesiuni/page.tsx:101 | an empty topic shows "-" |
| SesiuniPage.FormatDate | crm_frontend/app/sesiuni/page.tsx:47-52 | an empty timestamp shows "-"; otherwise the localised text |
| SesiuniPage.StatusColor | crm_frontend/app/sesiuni/page.tsx:103-104 | blue exactly for "planificata", emerald exactly for "realizata", red for anything else |
| SesiuniPage.StatusColorOfStates | crm_frontend/app/sesiuni/page.tsx:103-104 | of the session statuses exactly the cancelled one shows red |
| InscrieriPage.ElevName | crm_frontend/app/inscrieri/page.tsx:42 | the first student with the id; otherwise "Necunoscut" |
| InscrieriPage.GrupaName | crm_frontend/app/inscrieri/page.tsx:43 | the first group with the id; otherwise "Necunoscută" |
| InscrieriPage.Badge | crm_frontend/app/inscrieri/page.tsx:45-51 | Activ exactly for "activ", Retras exactly for "retras", Așteptare for anything else |
| InscrieriPage.BadgeOfStates | crm_frontend/app/inscrieri/page.tsx:45-51 | of the enrolment statuses exactly "in_asteptare" shows Așteptare |
| InscrieriPage.BadgeLabel | crm_frontend/app/inscrieri/page.tsx:47-49 | each of the three badges has its own text: "Activ", "Retras", "Așteptare" |
| InscrieriPage.Discount | crm_frontend/app/inscrieri/page.tsx:95 | the discount shows as a percentage exactly when it is present and above 0, and then shows that value |
| ContractePage.StatusBadgeColor | crm_frontend/app/contracte/page.tsx:50-61 | on the lower-cased status: emerald for "activ", red for "expirat", slate for "anulat", gray for anything else |
| ContractePage.CaseInsensitive | crm_frontend/app/contracte/page.tsx:51 | the colour of a status is the colour of its lower-cased form |
| ContractePage.CapitalisedActive | crm_frontend/app/contracte/page.tsx:51-53 | "ACTIV" shows emerald |
| LeaduriPage.StatusColor | crm_frontend/app/leaduri/page.tsx:61-70 | one colour for each of nou, contactat, calificat, convertit and pierdut; slate exactly for every other string |
| LeaduriPage.DefaultColorOfStages | crm_frontend/app/leaduri/page.tsx:68 | of the lead stages exactly "ofertat" shows the default slate |
| LeaduriPage.CapitalisedStageIsDefault | crm_frontend/app/leaduri/page.tsx:62-68 | the match is case-sensitive: "Nou" shows slate |
| LeaduriPage.Listed | crm_frontend/app/leaduri/page.tsx:31-40 | an array response is the list; a non-array response or an error is the empty list |
| LeaduriPage.Page.constructor | crm_frontend/app/leaduri/page.tsx:19-20 | the page starts with an empty list and loading |
| LeaduriPage.Page.FetchLeaduri | crm_frontend/app/leaduri/page.tsx:23-44 | the list becomes the normalised response and loading ends |
| LeaduriPage.Page.HandleDelete | crm_frontend/app/leaduri/page.tsx:46-54 | re-fetches exactly when the user confirmed and the reply is ok; otherwise nothing changes |
| FinanciarPage.StatusLabel | crm_frontend/app/financiar/page.tsx:33-44 | "Plătită", "Restantă" and "Emisă" exactly for their statuses; "Draft" for anything else |
| FinanciarPage.DraftLabelOfStates | crm_frontend/app/financiar/page.tsx:41-42 | of the invoice statuses, draft, cancelled and partly paid are all labelled "Draft" |
| FinanciarPage.DueDateClass | crm_frontend/app/financiar/page.tsx:86 | the due date is red exactly for an overdue invoice |
| FinanciarPage.HighlightMatchesLabel | crm_frontend/app/financiar/page.tsx:37-38 | the due date is red exactly when the label is "Restantă" (the cell is styled at line 86) |
| CatalogPage.SetPresence | crm_frontend/app/catalog/page.tsx:79-82 | same length; rows with the enrolment id get the presence; every other row is unchanged |
| CatalogPage.SetRating | crm_frontend/app/catalog/page.tsx:85-89 | same length; rows with the id get the rating; others unchanged |
| CatalogPage.SetNote | crm_frontend/app/catalog/page.tsx:92-98 | same length; rows with the id get the note; others unchanged |
| CatalogPage.SetPresenceIdempotent | crm_frontend/app/catalog/page.tsx:80 | marking presence twice with the same value is marking it once |
| CatalogPage.SetPresenceLastWins | crm_frontend/app/catalog/page.tsx:80 | of two presence marks on one row the second wins |
| CatalogPage.NextRating | crm_frontend/app/catalog/page.tsx:86 | the written rating is 0 or 5; it is 0 exactly when the current one is 5 |
| CatalogPage.NextRatingInvolution | crm_frontend/app/catalog/page.tsx:86 | starring twice restores a 0 or 5 rating |
| CatalogPage.PresentCount | crm_frontend/app/catalog/page.tsx:109 | the present count never exceeds the row count |
| CatalogPage.Percentage | crm_frontend/app/catalog/page.tsx:110 | the percentage is 0 for an empty catalog and never negative |
| CatalogPage.PercentageBounds | crm_frontend/app/catalog/page.tsx:110 | the percentage lies in 0..100 |
| CatalogPage.PercentageRounds | crm_frontend/app/catalog/page.tsx:110 | the percentage is 100·present/total rounded to the nearest integer, halves up |
| CatalogPage.Stats | crm_frontend/app/catalog/page.tsx:108-110 | total is the row count; present is at most total; the percentage is 0 for no rows and otherwise the rounded ratio |
| CatalogPage.PresenceMonotone | crm_frontend/app/catalog/page.tsx:79-109 | marking a row absent never raises the present count; marking it present never lowers it |
| CatalogPage.HeadsOfSplit | crm_frontend/app/catalog/page.tsx:112 | the first characters of the words of `split(" ")` are the characters that follow a space or begin the name |
| CatalogPage.WordStartsAreNotSpaces | crm_frontend/app/catalog/page.tsx:112 | no initial is a space |
| CatalogPage.Initials | crm_frontend/app/catalog/page.tsx:112 | at most two characters: the upper case of the first two word starts |
| CatalogPage.InitialsOfTwoWords | crm_frontend/app/catalog/page.tsx:112 | "First Last" gives the two capitalised initials |
| CatalogPage.JsRem | crm_frontend/app/catalog/page.tsx:114 | `%` agrees with the mathematical remainder on non-negative ids; on negative ids it lies in (-5, 0] |
| CatalogPage.Color | crm_frontend/app/catalog/page.tsx:113-114 | a non-negative id picks the palette entry id mod 5; a negative id picks nothing unless it is a multiple of 5 |
| CatalogPage.ColorPeriodic | crm_frontend/app/catalog/page.tsx:114 | non-negative ids that agree mod 5 get the same colour |
| CatalogPage.Page.constructor | crm_frontend/app/catalog/page.tsx:16-48 | the loaded catalog with no note dialog open and nobody selected |
| CatalogPage.Page.TogglePrezenta | crm_frontend/app/catalog/page.tsx:79-82 | the catalog becomes the presence update of the old one |
| CatalogPage.Page.ToggleStar | crm_frontend/app/catalog/page.tsx:85-89 | writes the rating the star toggle gives and updates only the matching rows |
| CatalogPage.Page.SaveNote | crm_frontend/app/catalog/page.tsx:92-98 | nothing changes when nobody is selected; otherwise the note of the selected enrolment's rows |
| CatalogPage.Page.OpenNoteDialog | crm_frontend/app/catalog/page.tsx:100-103 | selects the row's enrolment and name with its note, or "", and opens the dialog |
| Forms.EmptyToNull | crm_frontend/components/AddGrupaDialog.tsx:58-59 | an empty string is sent as null, anything else as itself |
| Forms.EmptyRoundTrip | crm_frontend/components/EditGrupaDialog.tsx:35-65 | a nullable text shown with `\|\| ""` and sent back comes back unchanged, except that "" comes back as null |
| Forms.IdText | crm_frontend/components/EditLeadDialog.tsx:29 | an id is shown as "" exactly when it is null or 0 |
| Forms.IdOrNull | crm_frontend/components/AddLeadDialog.tsx:60-63 | "" is sent as null, anything else as its `parseInt` |
| Forms.IdRoundTrip | crm_frontend/components/EditLeadDialog.tsx:29-46 | an id shown and sent back is unchanged, except that 0 comes back as null |
| Forms.Alerted | crm_frontend/components/AddLeadDialog.tsx:84-86 | an alert keeps the dialog open and does not notify the page |
| Forms.LocalDateTime | crm_frontend/components/AddSesiuneDialog.tsx:57-58 | the timestamp is the date, "T", the time and ":00", in that order |
| Forms.LocalDateTimeStartsWithDate | crm_frontend/components/AddSesiuneDialog.tsx:57-58 | a timestamp begins with its date followed by "T" |
| AddSesiuneDialog.TitularOf | crm_frontend/components/AddSesiuneDialog.tsx:45-49 | the first group whose id prints as the choice gives its lead teacher's id as text; none gives "" |
| AddSesiuneDialog.TitularIsTeacherId | crm_frontend/components/AddSesiuneDialog.tsx:45-49 | choosing a loaded group sends that group's lead teacher |
| AddSesiuneDialog.Payload | crm_frontend/components/AddSesiuneDialog.tsx:57-70 | both timestamps use the start date with their own times; ids are parsed; the other fields are sent as typed |
| AddSesiuneDialog.StartAndEndShareDate | crm_frontend/components/AddSesiuneDialog.tsx:57-58 | start and end begin with the same date |
| AddSesiuneDialog.Dialog.constructor | crm_frontend/components/AddSesiuneDialog.tsx:20-29 | starts from the form with 14:00, 16:00 and "planificata" |
| AddSesiuneDialog.Dialog.HandleGrupaChange | crm_frontend/components/AddSesiuneDialog.tsx:44-51 | sets the group and its lead teacher; no other field changes |
| AddSesiuneDialog.Dialog.Submit | crm_frontend/components/AddSesiuneDialog.tsx:61-83 | sends the form with note ""; on ok only the topic is cleared; otherwise nothing changes |
| EditSesiuneDialog.PartsOf | crm_frontend/components/EditSesiuneDialog.tsx:26-28 | the date is the text before the first "T"; the time is the first five characters of the next piece |
| EditSesiuneDialog.PartsOfDateOnly | crm_frontend/components/EditSesiuneDialog.tsx:26-27 | a timestamp without "T" is all date and has no time |
| EditSesiuneDialog.DatePart | crm_frontend/components/EditSesiuneDialog.tsx:26 | the date part holds no "T" and is the text up to the first "T", or all of it |
| EditSesiuneDialog.TimePart | crm_frontend/components/EditSesiuneDialog.tsx:27-28 | there is a time part exactly when the text has a "T", and it has at most five characters |
| EditSesiuneDialog.PartsOfDateTime | crm_frontend/components/EditSesiuneDialog.tsx:26-28 | a date "T" HH:MM:SS splits into the date and its HH:MM |
| EditSesiuneDialog.FormOf | crm_frontend/components/EditSesiuneDialog.tsx:30-39 | the form holds the start's date and both times, the ids as text, and "" for a missing room or topic |
| EditSesiuneDialog.Payload | crm_frontend/components/EditSesiuneDialog.tsx:57-69 | both timestamps use the form's date; ids are parsed; the session's own note is sent |
| EditSesiuneDialog.UnchangedFormRoundTrip | crm_frontend/components/EditSesiuneDialog.tsx:26-58 | an unedited save sends D "T" HH:MM ":00" for both; the end's own date is dropped; the ids come back |
| EditSesiuneDialog.DateOnlyStartSendsUndefined | crm_frontend/components/EditSesiuneDialog.tsx:27-57 | a start without a time is sent as date "Tundefined:00" |
| EditSesiuneDialog.SubmitOutcome | crm_frontend/components/EditSesiuneDialog.tsx:78-84 | ok closes and notifies; a non-ok reply alerts "Eroare la actualizare."; a throw keeps the dialog silently |
| AddGrupaDialog.ContractOf | crm_frontend/components/AddGrupaDialog.tsx:56 | "none" is sent as null, anything else as its `parseInt` |
| AddGrupaDialog.Payload | crm_frontend/components/AddGrupaDialog.tsx:52-60 | numbers parsed, empty dates null, contract mapped as above, texts as typed, and no note |
| AddGrupaDialog.DefaultPayload | crm_frontend/components/AddGrupaDialog.tsx:21-31 | the untouched form sends no contract, 10 children, "planificata", "plateste_parintii" and null dates |
| AddGrupaDialog.Dialog.constructor | crm_frontend/components/AddGrupaDialog.tsx:21-31 | starts from the default form |
| AddGrupaDialog.Dialog.Submit | crm_frontend/components/AddGrupaDialog.tsx:69-74 | sends the form; on ok only the group name is reset; otherwise nothing changes |
| EditGrupaDialog.ContractText | crm_frontend/components/EditGrupaDialog.tsx:31 | a null or 0 contract shows "none"; another id shows its decimal text |
| EditGrupaDialog.ContractRoundTrip | crm_frontend/components/EditGrupaDialog.tsx:31-62 | a contract id shown and sent back is unchanged, except that 0 comes back as null |
| EditGrupaDialog.FormOf | crm_frontend/components/EditGrupaDialog.tsx:27-37 | the form holds the ids and capacity as text, dates or "", and the texts as stored |
| EditGrupaDialog.EditPayload | crm_frontend/components/EditGrupaDialog.tsx:58-67 | the body of the create dialog plus the group's own note |
| EditGrupaDialog.UnchangedFormRoundTrip | crm_frontend/components/EditGrupaDialog.tsx:27-67 | an unedited save sends the group back with its ids, capacity and note; a 0 contract or "" date comes back null |
| EditGrupaDialog.SubmitOutcome | crm_frontend/components/EditGrupaDialog.tsx:76-81 | ok closes and notifies; a non-ok reply alerts; a throw keeps the dialog |
| StockMovementDialog.InitialTip | crm_frontend/components/StockMovementDialog.tsx:20-23 | "consum_out" when the dialog is opened for an outgoing movement; "achizitie_in" otherwise, the default included |
| StockMovementDialog.IsIn | crm_frontend/components/StockMovementDialog.tsx:53 | every kind counted as incoming is a movement kind the server accepts |
| StockMovementDialog.IsInOfKinds | crm_frontend/components/StockMovementDialog.tsx:53 | of the movement kinds, exactly purchase and defect return are incoming |
| StockMovementDialog.Quantity | crm_frontend/components/StockMovementDialog.tsx:33 | the quantity is the `parseInt` of the input, or 0 when that is NaN |
| StockMovementDialog.QuantityOfNumber | crm_frontend/components/StockMovementDialog.tsx:33 | a typed number is sent as itself; an empty input as 0 |
| StockMovementDialog.Dialog.constructor | crm_frontend/components/StockMovementDialog.tsx:20-24 | quantity "1", empty note, and the initial kind |
| StockMovementDialog.Dialog.Submit | crm_frontend/components/StockMovementDialog.tsx:26-50 | no product: nothing is sent; otherwise the movement is sent; on ok quantity and note reset with the kind unchanged |
| AddLeadDialog.Payload | crm_frontend/components/AddLeadDialog.tsx:58-63 | the form as typed with the partner id mapped "" to null |
| AddLeadDialog.DefaultPayload | crm_frontend/components/AddLeadDialog.tsx:31-39 | the untouched form sends source "facebook", status "nou" and no partner |
| AddLeadDialog.ChosenPartnerSent | crm_frontend/components/AddLeadDialog.tsx:60-63 | a chosen partner's id is sent as that id |
| AddLeadDialog.Dialog.constructor | crm_frontend/components/AddLeadDialog.tsx:31-39 | starts from the default form |
| AddLeadDialog.Dialog.Submit | crm_frontend/components/AddLeadDialog.tsx:65-90 | on ok the form is exactly the defaults again; a non-ok reply alerts and keeps the form; a throw keeps it silently |
| EditLeadDialog.FormOf | crm_frontend/components/EditLeadDialog.tsx:22-30 | the form holds the lead's fields, its note or "", and its partner id as text |
| EditLeadDialog.UnchangedFormRoundTrip | crm_frontend/components/EditLeadDialog.tsx:22-46 | an unedited save sends the lead back; a null note comes back as "" and partner 0 as null |
| EditLeadDialog.SubmitOutcome | crm_frontend/components/EditLeadDialog.tsx:55-58 | ok closes and notifies; anything else leaves the dialog open silently |
| AddElevDialog.Payload | crm_frontend/components/AddElevDialog.tsx:29-32 | an empty birth date becomes null; the other fields are sent as typed; no note |
| AddElevDialog.Received | crm_frontend/components/AddElevDialog.tsx:29-32 | the server reads the body iff its birth date is null or a real date of the years 1 to 9999; name and consent arrive as sent |
| AddElevDialog.YearZeroBirthDateRejected | crm_frontend/components/AddElevDialog.tsx:29-32 | every body whose birth date is written in year 0000 is rejected by the server |
| AddElevDialog.BlankFormPayload | crm_frontend/components/AddElevDialog.tsx:15-23 | the blank form sends a null birth date and no consent, and the server accepts it |
| AddElevDialog.Dialog.constructor | crm_frontend/components/AddElevDialog.tsx:15-23 | starts with every text empty and consent off |
| AddElevDialog.Dialog.Submit | crm_frontend/components/AddElevDialog.tsx:41-54 | sends the form; on ok the form is blank again; otherwise nothing changes |
| EditElevDialog.FormOf | crm_frontend/components/EditElevDialog.tsx:16-24 | null texts show as ""; the consent as stored |
| EditElevDialog.BirthDateRoundTrip | crm_frontend/components/EditElevDialog.tsx:18-29 | the birth date shown and sent back is unchanged, except "" as null |
| EditElevDialog.SavingErasesNote | crm_frontend/components/EditElevDialog.tsx:29 | an unedited save of a student with a note reaches the server with a null note |
| EditElevDialog.PayloadKeepingNote | crm_frontend/components/EditElevDialog.tsx:29 | the dialog's body plus the student's own note |
| EditElevDialog.SavingKeepsStudent | crm_frontend/components/EditElevDialog.tsx:16-29 | with the note carried over, an unedited save keeps the name, note, consent and birth date |
| EditElevDialog.SubmitOutcome | crm_frontend/components/EditElevDialog.tsx:38-41 | ok closes and notifies; anything else leaves the dialog open |
| AddCursDialog.Payload | crm_frontend/components/AddCursDialog.tsx:29-33 | both ages parsed; the other fields as typed; no description |
| AddCursDialog.Received | crm_frontend/components/AddCursDialog.tsx:29-33 | every course field of the body is present, so none takes the server default |
| AddCursDialog.DefaultsOverrideServerDefaults | crm_frontend/components/AddCursDialog.tsx:16-23 | the untouched form creates "Programare", "Incepator", ages 7 to 14 |
| AddCursDialog.Dialog.constructor | crm_frontend/components/AddCursDialog.tsx:16-23 | starts from the default form |
| AddCursDialog.Dialog.Submit | crm_frontend/components/AddCursDialog.tsx:42-53 | sends the form; on ok the defaults return; otherwise nothing changes |
| EditCursDialog.FormOf | crm_frontend/components/EditCursDialog.tsx:24-31 | ages shown as decimal text; a null syllabus link as "" |
| EditCursDialog.EditPayload | crm_frontend/components/EditCursDialog.tsx:37-43 | the create dialog's body plus the course's own description |
| EditCursDialog.UnchangedFormRoundTrip | crm_frontend/components/EditCursDialog.tsx:24-43 | an unedited save stores the same ages, category and description |
| EditCursDialog.SubmitOutcome | crm_frontend/components/EditCursDialog.tsx:52-57 | ok closes and notifies; a non-ok reply alerts; a throw keeps the dialog |
| AddPartnerDialog.WithField | crm_frontend/components/AddPartnerDialog.tsx:46-48 | the field named by the input's id takes the value; every other field is kept |
| AddPartnerDialog.FormsByFields | crm_frontend/components/AddPartnerDialog.tsx:25-31 | a form is determined by its five fields |
| AddPartnerDialog.WithFieldLastWins | crm_frontend/components/AddPartnerDialog.tsx:47 | typing into one field twice is typing the last text once |
| AddPartnerDialog.WithFieldCommutes | crm_frontend/components/AddPartnerDialog.tsx:47 | edits of different fields can be applied in either order |
| AddPartnerDialog.EmailNeverEdited | crm_frontend/components/AddPartnerDialog.tsx:104-153 | no sequence of edits through the rendered inputs and the select changes the e-mail |
| AddPartnerDialog.Received | crm_frontend/components/AddPartnerDialog.tsx:65 | the body carries the five form fields and no status |
| AddPartnerDialog.OfferedKindsAccepted | crm_frontend/components/AddPartnerDialog.tsx:118-126 | every kind the select offers is accepted, and the new partner starts as "potential" |
| AddPartnerDialog.Dialog.constructor | crm_frontend/components/AddPartnerDialog.tsx:38-44 | starts with kind "scoala_stat" and every other field "" |
| AddPartnerDialog.Dialog.HandleChange | crm_frontend/components/AddPartnerDialog.tsx:46-48 | only the field named by the id changes |
| AddPartnerDialog.Dialog.HandleSelectChange | crm_frontend/components/AddPartnerDialog.tsx:50-52 | only the kind changes |
| AddPartnerDialog.Dialog.Submit | crm_frontend/components/AddPartnerDialog.tsx:54-82 | the body is the form; on ok the defaults return; a non-ok reply or a throw alerts its message and keeps the form |
| EditPartnerDialog.FormOf | crm_frontend/components/EditPartnerDialog.tsx:36-42 | null city, phone and e-mail show as "" |
| EditPartnerDialog.EditOfferedKindsAccepted | crm_frontend/components/EditPartnerDialog.tsx:109-113 | all five offered kinds, "after_school" included, are accepted |
| EditPartnerDialog.BodyKeepsEmail | crm_frontend/components/EditPartnerDialog.tsx:97-127 | whatever is typed in the inputs, none of which edits the e-mail, the body carries the e-mail as first shown at line 63 |
| EditPartnerDialog.Dialog.constructor | crm_frontend/components/EditPartnerDialog.tsx:36-42 | starts from the partner's form |
| EditPartnerDialog.Dialog.HandleChange | crm_frontend/components/EditPartnerDialog.tsx:44-46 | only the field named by the id changes |
| EditPartnerDialog.Dialog.HandleSelectChange | crm_frontend/components/EditPartnerDialog.tsx:48-50 | only the kind changes |
| EditPartnerDialog.Dialog.Submit | crm_frontend/components/EditPartnerDialog.tsx:52-78 | the body is the form; ok closes and notifies; a non-ok reply or a throw alerts its message; the form is never reset |

## Left out

- HTTP itself is not modelled: `fetch` and `Promise.all`, JSON encoding, and the requests
  that load the option lists of the dialogs. Each reply is an input `Ok`, `NotOk` or
  `Thrown`, and each loaded list is a parameter.
- `confirm`, `alert` and `console` are not called. An alert is the `alert` field of the
  dialog's outcome, and a confirmation is a boolean input.
- The `loading` flags of the dialogs are not modelled; they only disable buttons. The
  leads page keeps its own flag.
- The per-input `onChange` handlers of the other dialogs are not modelled. Each is a
  one-field update of the form. The models start from an arbitrary form.
- A JavaScript `onChange` event can carry an id that names no partner field, which would
  add a key to the form. The model admits only the five field names.
- The `created_at` clock is a parameter `now`.
- ORM sessions, commits, CORS and `crm_backend/database.py` are not modelled. Of the
  refresh after a commit, only its failure on an unknown payer kind is modelled.
- Backend.GrupaOut: SQLAlchemy's enum column also stores and reads back the member names
  of `TipPlataGrupa`, such as `PLATESTE_SCOALA`. The model treats those texts as unknown
  payer kinds, because the answer they produce depends on how the response schema turns
  an enum member into text.
- Backend.Server.CreateGrupa, Backend.Server.UpdateGrupa: they follow SQLAlchemy 1.4 and
  later, where an unknown payer kind is committed and only the refresh fails. Before 1.4
  the column carried a CHECK constraint, and such a row was not stored at all.
- Deleting a row nulls only the keys held by modelled tables. The keys held by clients,
  tasks, enrolments, attendances, invoice lines, payments, stock movements, teacher skills
  and course equipment are not part of this model. The invoices' client key is not nulled
  either, because clients are never deleted through the API. The clients created for
  invoices name no partner or student.
- FastAPI's 422 answers for missing or ill-typed fields are not modelled. A decoder
  rejects only an unknown enumeration value.
- Timestamps in the back end are integer seconds. The parse of a datetime string into
  seconds is not modelled.
- Money, rates and durations are exact reals, not IEEE doubles.
- The dialogs that only do `parseFloat(...) || 0` are not modelled, because they depend
  on float semantics: contracts, teachers, invoices, products and enrolments.
- The scale of the `Numeric` columns is not modelled.
- How the front end formats the discount number is not modelled.
- `toLocaleDateString` and `toLocaleTimeString` depend on locale and time zone, so
  `SesiuniPage.FormatDate` takes the localised text as a parameter.
- `new Date(...)` in the students page reads `YYYY-MM-DD` as UTC midnight, which can shift
  the day in some time zones. The model uses calendar triples.
- Other date string formats are not modelled. An impossible date such as 2023-02-30
  reads as NaN here, while V8 rolls it over to a later day.
- CatalogPage.PercentageRounds: the model rounds exact halves up. The doubles of
  `Math.round((p / t) * 100)` can land just below a half and round down (for example
  57 of 200).
- `toString` of very large numbers uses exponent notation. Integers between 2^53 and
  10^21 are printed as the shortest digits that round-trip, padded with zeros
  (`(2**64).toString()` is "18446744073709552000"). The model prints every integer in
  exact plain decimal.
- Case mapping covers ASCII and the Romanian letters only.
- Strings are sequences of code points. JavaScript's `n[0]` and `substring` count UTF-16
  code units, which differs for characters outside the Basic Multilingual Plane.
- EditGrupaDialog.FormOf requires a non-null `max_copii`, because the source calls
  `toString` on it and throws on null.
- EditCursDialog.FormOf requires non-null ages, for the same reason.
- The server endpoints for the catalog, enrolments, products, stock movements, settings,
  dashboard and Google are not part of this model. Their server code is not among the
  source files, so stock arithmetic and catalog persistence are not modelled.
- The catalog's `updateServer` is fire-and-forget. It races with later edits and nothing
  reconciles them, so only the local list update is modelled.
- The product type and the catalog and enrolment row types are not in
  `crm_frontend/types/index.ts`. The product is modelled by its id, and the row types by
  the fields the pages read.
- The settings, dashboard and the courses, teachers and inventory pages only render. So do
  the sidebar, the layout and the note dialog. None of them is modelled.
- The courses page passes `onUpdate`, but `EditCursDialog` expects `onCursUpdated`. This
  is a wiring mismatch, not logic, and it is not modelled.
- The students page's own inputs and list loading are not modelled, only its age label.

## Findings

| source | as written | input that shows it | evidently intended | confidence | as-written member | corrected member |
|---|---|---|---|---|---|---|
| crm_frontend/components/EditElevDialog.tsx:29 with crm_backend/main.py:376 | the edit dialog's body has no `note`, and `update_elev` assigns the request's note, which defaults to null | a student with note "alergic la arahide", saved unedited | the note is kept, as in the group, session and course edit dialogs, which send the record's own note | medium, not executed | EditElevDialog.SavingErasesNote | EditElevDialog.SavingKeepsStudent |
