# CES 2026 side-event tracker: the data layers, in Dafny

The tracker has two pages, and each keeps its own data layer behind the UI.
This project models both layers and the record types they are built on.

- **The exhibitor store** (`src/hooks/use-exhibitors.ts`). It holds a map
  from exhibitor id to the user's annotation (starred flag, visit status,
  notes) and a list of user-created "X-Factor" exhibitors. Five actions
  change them: toggle star, set status, set notes, add an X-Factor exhibitor,
  remove one. A pure merge joins the bundled dataset with the created list
  and attaches each exhibitor's annotation, or the zero annotation when it
  has none. `exportData` writes the merged list as CSV.
- **The attendee page** (`src/pages/Home.tsx`). It holds the attendee list
  and the language preference. The page shows a filtered view: a
  case-insensitive search over name, company and title, plus four filters
  that are "ALL" or an exact value. It counts the view per category, edits a
  field on the attendees matching a chosen row, resets to the bundled data
  with empty notes, and exports the view as CSV.
- **The record types** (`src/types.ts`): the closed `VisitStatus` enum,
  its picker order and colours, `UserState`, `Exhibitor` and
  `ExhibitorWithState`.

Files:

- `wrappers.dfy`: `Option`, and `Saved`, which is what reading a stored
  document gives: missing, unparsable or a value.
- `types.dfy`: module `Types`.
- `lists.dfy`: module `Lists`. It holds the order-preserving `filter` both
  pages use, the subsequence relation that filter produces, and the `map`
  both exports use to build one row per record.
- `csv.dfy`: module `Csv`. It has the cell quoting both writers use (rules
  5-7 of section 2 of RFC 4180: wrap in double quotes, double every inner
  quote). It also has a reader for such text, with bare line feeds between
  records. The read-back lemmas use this reader as the partner of both
  writers: parsing the written text gives back exactly the values written.
- `exhibitors.dfy`: module `Exhibitors`. It has the pure updates each action
  hands to `setState`, the merge, the export and the class `ExhibitorStore`.
- `home.dfy`: module `Home`. It has the attendee record, the filter, the
  statistics (a method with a loop, as the source's `reduce` accumulates into
  a mutable record), the edit, the reset, the language preference, the
  export and the class `AttendeeBoard`.

Behaviours of the code worth knowing:

- The merged list puts the bundled dataset first and the created exhibitors
  after it. A newly added exhibitor is first among the created ones, not
  first in the list.
- Removal succeeds for every id with the `xf-` prefix, whether or not such an
  exhibitor exists. It is refused only for ids without the prefix.
- The exhibitor export writes the id, status, starred and website columns
  without quotes. Both exports separate records with a bare line feed, not
  CRLF.
- On start-up both stored exhibitor documents are read inside one `try`. An
  unreadable annotation document therefore also leaves the created list
  empty.

## Model

| member | source | states |
|---|---|---|
| Types.StatusText | src/types.ts:18 | every status has a non-empty literal, and "None" is the literal of the no-status value only |
| Types.StatusTextInjective | src/types.ts:18 | different statuses have different literals |
| Types.StatusIndex | src/types.ts:30-36 | every status has a position in the picker list |
| Types.StatusOptionsDistinct | src/types.ts:30-36 | no status is listed twice |
| Types.StatusOptionsExactlyOnce | src/types.ts:18-36 | each status occurs in the picker list exactly once |
| Types.StatusColor | src/types.ts:38-44 | the colour table is total: every status has a non-empty class string |
| Lists.Filter | src/hooks/use-exhibitors.ts:109 | `filter` keeps only elements that satisfy the predicate, never grows the list, and returns a subsequence |
| Lists.Map | src/hooks/use-exhibitors.ts:124-135 | `map`: one result per item, in item order, each computed from its item |
| Lists.FilterMultiset | src/pages/Home.tsx:135 | an element survives filtering exactly as often as it occurs, if it satisfies the predicate, and not at all otherwise |
| Lists.FilterMember | src/pages/Home.tsx:135 | an element is in the result if and only if it is in the input and satisfies the predicate |
| Lists.FilterKeepsAll | src/pages/Home.tsx:135 | a predicate true of every element keeps the whole list |
| Lists.FilterStronger | src/pages/Home.tsx:135-146 | filtering by a stronger predicate equals filtering the weaker result again |
| Lists.FilterNarrows | src/pages/Home.tsx:135-146 | a stronger predicate keeps a subsequence of what the weaker keeps |
| Lists.SubseqLength | src/pages/Home.tsx:135-146 | a subsequence is never longer than the sequence it is taken from, so a narrower view never shows more rows |
| Csv.Escape | src/hooks/use-exhibitors.ts:128 | doubling quotes never shortens the text |
| Csv.EscapeLength | src/hooks/use-exhibitors.ts:128 | doubling quotes adds exactly one character per quote in the text |
| Csv.EscapeNoQuote | src/hooks/use-exhibitors.ts:128 | doubling quotes leaves text without quotes unchanged |
| Csv.Render | src/hooks/use-exhibitors.ts:128 | a bare cell is written as its text; a quoted cell is wrapped in double quotes (with the escaped text between them, read back by `Csv.ParseFieldRender`) |
| Csv.Join | src/hooks/use-exhibitors.ts:136-137 | `join`: nothing for no parts, otherwise the first part followed by the separator when more parts follow (read back by `Csv.ParseRecordRender` and `Csv.ParseDocumentLines`) |
| Csv.RenderRow | src/hooks/use-exhibitors.ts:126-136 | one record is the rendered cells joined by commas, starting with the first cell (read back by `Csv.ParseRecordRender`) |
| Csv.ParseQuotedEscape | src/hooks/use-exhibitors.ts:128-134 | a quote-doubled text followed by the closing quote reads back as the original text |
| Csv.ParseBarePlain | src/hooks/use-exhibitors.ts:127-135 | an unquoted cell without comma, quote or line feed reads back as itself |
| Csv.ParseFieldRender | src/hooks/use-exhibitors.ts:127-135 | any well-formed cell, quoted or not, reads back as its value and stops at the next separator |
| Csv.ParseRecordRender | src/hooks/use-exhibitors.ts:136 | cells joined by commas read back as the list of their values, up to the line feed |
| Csv.ParseDocumentLines | src/hooks/use-exhibitors.ts:124-137 | rows joined by line feeds read back as one record per row, in order |
| Csv.ParseDocumentWithHeader | src/hooks/use-exhibitors.ts:124-137 | a header line followed by data lines reads back as the header values and then the rows' values |
| Csv.ParseDocumentHeaderLines | src/pages/Home.tsx:169-185 | header, line feed and data lines read back as header then rows, also when there are no rows |
| Csv.ParseDocumentOneLine | src/pages/Home.tsx:169 | a single line ended by a line feed reads back as one record |
| Csv.BareRowReadsBack | src/pages/Home.tsx:166 | a header of plain titles joined by commas is well formed and reads back as the titles |
| Exhibitors.IsCreatedId | src/hooks/use-exhibitors.ts:108 | an id is a created one exactly when its first three characters are `x`, `f`, `-` |
| Exhibitors.StateOf | src/hooks/use-exhibitors.ts:56-62 | a missing annotation reads as not starred, status "None", empty notes |
| Exhibitors.ToggledStar | src/hooks/use-exhibitors.ts:67-75 | the id is present afterwards, its flag is negated, its status and notes are kept, and every other key is unchanged |
| Exhibitors.WithStatus | src/hooks/use-exhibitors.ts:77-85 | the id is present afterwards with the new status, its flag and notes are kept, and every other key is unchanged |
| Exhibitors.WithNotes | src/hooks/use-exhibitors.ts:87-95 | the id is present afterwards with the new notes, its flag and status are kept, and every other key is unchanged |
| Exhibitors.ToggleStarTwice | src/hooks/use-exhibitors.ts:67-75 | toggling twice gives back every annotation as it read before |
| Exhibitors.StatusThenNotes | src/hooks/use-exhibitors.ts:77-95 | setting status, then notes, of one id leaves both set and the flag as it was |
| Exhibitors.NewXFactor | src/hooks/use-exhibitors.ts:97-102 | the new exhibitor has an `xf-` id ending in the supplied suffix, is flagged as created, and copies every entered field |
| Exhibitors.WithXFactor | src/hooks/use-exhibitors.ts:103 | the created list grows by one, with the exhibitor built from the entered data and the suffix first and the old list as its tail |
| Exhibitors.WithoutCreated | src/hooks/use-exhibitors.ts:109 | no entry with the id remains; every other entry remains exactly as often as before and in the same order |
| Exhibitors.AsStatic | src/hooks/use-exhibitors.ts:49-52 | a dataset entry is flagged as not created, keeping its id and every other field |
| Exhibitors.Merge | src/hooks/use-exhibitors.ts:48-64 | length is dataset plus created; dataset entries first in order, flagged not created; created entries after in order; each entry carries its annotation or the zero annotation |
| Exhibitors.MergeAfterToggle | src/hooks/use-exhibitors.ts:48-75 | after a star toggle the merged view changes only in the entries with that id, and there only in the flag |
| Exhibitors.MergeAfterAdd | src/hooks/use-exhibitors.ts:97-103 | after an add, with a fresh id, the new exhibitor sits right after the dataset with the zero annotation; all other entries keep their places |
| Exhibitors.MergeAfterRemove | src/hooks/use-exhibitors.ts:107-115 | after a removal no merged entry has the id, and the dataset part is unchanged |
| Exhibitors.ExportData | src/hooks/use-exhibitors.ts:122-137 | the export starts with the header line; it is the header line alone exactly when nothing is merged, with no trailing line feed |
| Exhibitors.ExportCells | src/hooks/use-exhibitors.ts:126-136 | nine cells carrying the exported values in column order; exactly the name, booth, category, country and notes cells are quoted, and id, starred, status and website go out bare |
| Exhibitors.ExportValues | src/hooks/use-exhibitors.ts:126-136 | an exported row has nine values, with the name and notes in place and "Yes" exactly for a starred exhibitor |
| Exhibitors.ExportDataReadsBack | src/hooks/use-exhibitors.ts:122-137 | the export reads back as the nine-column header and then exactly one record per merged exhibitor, in merge order, holding its values |
| Exhibitors.ExhibitorStore.constructor | src/hooks/use-exhibitors.ts:16-32 | start-up: saved annotations if readable, else empty; saved created list if readable and the annotations were not corrupt, else empty |
| Exhibitors.ExhibitorStore.ToggleStar | src/hooks/use-exhibitors.ts:67-75 | the annotation map becomes the toggled map, and the created list is unchanged |
| Exhibitors.ExhibitorStore.UpdateStatus | src/hooks/use-exhibitors.ts:77-85 | the annotation map gets the new status, and the created list is unchanged |
| Exhibitors.ExhibitorStore.UpdateNotes | src/hooks/use-exhibitors.ts:87-95 | the annotation map gets the new notes, and the created list is unchanged |
| Exhibitors.ExhibitorStore.AddXFactor | src/hooks/use-exhibitors.ts:97-105 | the created list gets the new exhibitor in front, and the annotations are unchanged |
| Exhibitors.ExhibitorStore.RemoveExhibitor | src/hooks/use-exhibitors.ts:107-120 | succeeds exactly for `xf-` ids, then drops the exhibitor and its annotation; otherwise changes nothing |
| Exhibitors.ExhibitorStore.Exhibitors | src/hooks/use-exhibitors.ts:48-64 | `allExhibitors`: the merge of the dataset with the store's created list and annotations, dataset first, as `Exhibitors.Merge` states |
| Exhibitors.ExhibitorStore.Export | src/hooks/use-exhibitors.ts:122-137 | `exportData` of the merged view: starts with the header line, and is that line alone when there is nothing to export (see `Exhibitors.ExportData`, `Exhibitors.ExportDataReadsBack`) |
| Home.GetField | src/pages/Home.tsx:62-78 | every key but `notes` is always present |
| Home.FieldsDetermineAttendee | src/pages/Home.tsx:62-78 | records that agree on every key are equal |
| Home.SetField | src/pages/Home.tsx:201 | the spread-and-set record reads the new value at that key and is unchanged at every other key |
| Home.Lower | src/pages/Home.tsx:137-139 | lowering keeps the length and lowers each character |
| Home.ContainsAt | src/pages/Home.tsx:137-139 | `includes` holds exactly when the part occurs at some position of the text |
| Home.MatchesSearch | src/pages/Home.tsx:136-139 | the empty search matches everyone; otherwise the lower-cased query must occur at some position of the lower-cased name, company or job title |
| Home.Selects | src/pages/Home.tsx:141-144 | "ALL" lets every value through; any other choice lets through only the equal value |
| Home.Matches | src/pages/Home.tsx:134-147 | the cleared filter keeps everyone; a kept attendee has the chosen category |
| Home.FilterAttendees | src/pages/Home.tsx:134-148 | the view is a subsequence of the list; an attendee is in it iff it matches the search and all four filters; each kept attendee occurs as often as in the list |
| Home.NoFilterKeepsAll | src/pages/Home.tsx:121-148 | with the initial empty search and all filters "ALL" the view is the whole list |
| Home.FilterNarrowing | src/pages/Home.tsx:141-146 | setting filters that were "ALL" to values keeps a subsequence of the previous view, never longer |
| Home.ComputeStats | src/pages/Home.tsx:151-159 | the total is the view's length; exactly the occurring categories have a count, each count is the number with that category, and the counts sum to the total |
| Home.UpdateMatching | src/pages/Home.tsx:197-204 | the length is kept; the field reads the value on every attendee with the chosen name and email; every other field and every other attendee is unchanged |
| Home.UpdateReachesChosenRow | src/pages/Home.tsx:197-202 | the chosen row's record is in the list, so at least one attendee gets the value |
| Home.WithNotesDefaulted | src/pages/Home.tsx:117-118 | first load gives every record a notes string (its own, or empty) and changes no other field |
| Home.WithNotesCleared | src/pages/Home.tsx:209 | reset gives every bundled record empty notes and changes no other field |
| Home.LanguageCode | src/pages/Home.tsx:101-103 | English is stored as "en" and only English is |
| Home.LoadLanguage | src/pages/Home.tsx:96-99 | the saved value gives English exactly when it is "en"; anything else gives Chinese |
| Home.LoadLanguageRoundTrip | src/pages/Home.tsx:96-103 | a stored preference loads back as itself |
| Home.Toggled | src/pages/Home.tsx:214-216 | toggling always changes the language |
| Home.ToggleTwice | src/pages/Home.tsx:214-216 | toggling twice gives the language back |
| Home.ExportCsv | src/pages/Home.tsx:166-185 | the text starts with the header line and a line feed, and is exactly that when the view is empty |
| Home.ExportCells | src/pages/Home.tsx:171-183 | eleven cells carrying the exported values in column order, every one of them quoted |
| Home.ExportValues | src/pages/Home.tsx:171-182 | an exported row has eleven values, with name and email in place and a missing note written as empty |
| Home.ExportReadsBack | src/pages/Home.tsx:164-185 | the export reads back as the eleven-column header and then exactly one record per attendee in the view, in view order, holding its values, whatever the data |
| Home.ResetClearsExportedNotes | src/pages/Home.tsx:206-212 | after a reset every exported row has an empty notes column |
| Home.AttendeeBoard.constructor | src/pages/Home.tsx:96-125 | start-up: the validated language, the saved list if readable (else the bundled data with notes filled in), no filter |
| Home.AttendeeBoard.SetFilter | src/pages/Home.tsx:121-125 | only the filter changes |
| Home.AttendeeBoard.Filtered | src/pages/Home.tsx:134-148 | `filteredData`: a subsequence of the list holding exactly the attendees that match the current filter (see `Home.FilterAttendees`) |
| Home.AttendeeBoard.UpdateAttendee | src/pages/Home.tsx:197-204 | the list becomes the update of the record at that row of the view; filter and language are unchanged |
| Home.AttendeeBoard.ResetData | src/pages/Home.tsx:206-212 | the list becomes the bundled data with empty notes; filter and language are unchanged |
| Home.AttendeeBoard.ToggleLang | src/pages/Home.tsx:214-216 | the language is toggled; list and filter are unchanged |
| Home.AttendeeBoard.Export | src/pages/Home.tsx:164-185 | `handleExport`'s CSV of the current view starts with the header line and a line feed (see `Home.ExportCsv`, `Home.ExportReadsBack`) |

## Left out

- Persistence: `localStorage` and `JSON.parse`/`stringify`. A stored document
  enters only as a `Saved` value (missing, unparsable or a value) given to the
  constructors. The effects that write state back, and the `loading` flag
  gating them, are not modelled.
- `nanoid()`: the random id suffix is a parameter of `AddXFactor`.
  `MergeAfterAdd` asks that the new id have no annotation yet.
- Downloads and notices: `Blob`, object URLs, the link element and its
  click, the file name with today's date, `toast`, and the `confirm` dialog.
  `ResetData` is the branch taken after the user confirms.
- The attendee export's `data:text/csv;charset=utf-8,` prefix and the
  `encodeURI` of the whole text are not part of the model; `ExportCsv` is
  the CSV text itself.
- Home.Lower: only ASCII letters are lowered. `toLowerCase` on other scripts
  is not modelled.
- Attendee fields beyond the named ones (the `[key: string]: any` part of
  the type) are not modelled. The phone number is text, so
  `String()` of a numeric phone is the text itself.
- Home.AttendeeBoard.UpdateAttendee: requires the row index to lie inside
  the view. The source reads `filteredData[index]` and fails on `target.name`
  otherwise.
- Exhibitors.ExportDataReadsBack: requires the id and website of every
  exhibitor to be free of commas, double quotes and line feeds. The source
  writes those two columns unquoted, so such a character would split or
  break the record when read back.
- Plain JavaScript objects serve as maps in both layers: the annotation
  lookups `userStates[iid] || {...}` (src/hooks/use-exhibitors.ts:57-89) and
  the category tally `acc[cat] || 0` (src/pages/Home.tsx:154). A key naming
  an `Object.prototype` member (`constructor`, `toString`, `__proto__`) would
  not read as the zero value there; the model uses true maps. Dataset ids,
  `xf-` ids and the categories never take those values.
- Exhibitors.ExhibitorStore: `Exhibitors` and `Export` give the merged view
  and its CSV for a bundled dataset passed in. The dataset JSON import is
  not modelled.
- The pie chart data (`pieData`), translations (`t`, the i18n tables),
  the presentational components and React's state and memo plumbing.
