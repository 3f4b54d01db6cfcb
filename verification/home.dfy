/**
 * The attendee page: the attendee list and the language preference, the
 * search-and-filter view over the list, the per-category statistics, the
 * in-place edit of one attendee, the reset to the bundled data and the CSV
 * export of the filtered view.
 */
module Home {

  import opened Wrappers
  import opened Lists
  import opened Csv

  /** One attendee record of the bundled data (the phone number as text). */
  datatype Attendee = Attendee(
    category: string,        // 分類
    name: string,
    email: string,
    phone: string,           // phone_number
    company: string,         // What company do you work for?
    jobTitle: string,        // What is your job title?
    linkedIn: string,        // What is your LinkedIn profile?
    approvalStatus: string,  // approval_status
    createdAt: string,
    ticketName: string,
    country: string,         // Country / Region
    dealStatus: string,      // 洽談情況
    priority: string,        // 目標優先級
    notes: Option<string>)

  /** The keys of an attendee record. */
  datatype AttendeeField =
    | Category | Name | Email | Phone | Company | JobTitle | LinkedIn
    | ApprovalStatus | CreatedAt | TicketName | Country | DealStatus | Priority | Notes

  /** Reads one key; only `notes` may be absent. */
  function GetField(a: Attendee, f: AttendeeField): (r: Option<string>)
    ensures f != Notes ==> r.Some?
  {
    match f
    case Category => Some(a.category)
    case Name => Some(a.name)
    case Email => Some(a.email)
    case Phone => Some(a.phone)
    case Company => Some(a.company)
    case JobTitle => Some(a.jobTitle)
    case LinkedIn => Some(a.linkedIn)
    case ApprovalStatus => Some(a.approvalStatus)
    case CreatedAt => Some(a.createdAt)
    case TicketName => Some(a.ticketName)
    case Country => Some(a.country)
    case DealStatus => Some(a.dealStatus)
    case Priority => Some(a.priority)
    case Notes => a.notes
  }

  /** Two records that agree on every key are the same record. */
  lemma FieldsDetermineAttendee(a: Attendee, b: Attendee)
    requires forall f :: GetField(a, f) == GetField(b, f)
    ensures a == b
  {
    assert GetField(a, Category) == GetField(b, Category);
    assert GetField(a, Name) == GetField(b, Name);
    assert GetField(a, Email) == GetField(b, Email);
    assert GetField(a, Phone) == GetField(b, Phone);
    assert GetField(a, Company) == GetField(b, Company);
    assert GetField(a, JobTitle) == GetField(b, JobTitle);
    assert GetField(a, LinkedIn) == GetField(b, LinkedIn);
    assert GetField(a, ApprovalStatus) == GetField(b, ApprovalStatus);
    assert GetField(a, CreatedAt) == GetField(b, CreatedAt);
    assert GetField(a, TicketName) == GetField(b, TicketName);
    assert GetField(a, Country) == GetField(b, Country);
    assert GetField(a, DealStatus) == GetField(b, DealStatus);
    assert GetField(a, Priority) == GetField(b, Priority);
    assert GetField(a, Notes) == GetField(b, Notes);
  }

  /** `{ ...a, [field]: value }`: that key now reads `value`, no other key changes. */
  function SetField(a: Attendee, f: AttendeeField, v: string): (r: Attendee)
    ensures GetField(r, f) == Some(v)
    ensures forall g :: g != f ==> GetField(r, g) == GetField(a, g)
  {
    match f
    case Category => a.(category := v)
    case Name => a.(name := v)
    case Email => a.(email := v)
    case Phone => a.(phone := v)
    case Company => a.(company := v)
    case JobTitle => a.(jobTitle := v)
    case LinkedIn => a.(linkedIn := v)
    case ApprovalStatus => a.(approvalStatus := v)
    case CreatedAt => a.(createdAt := v)
    case TicketName => a.(ticketName := v)
    case Country => a.(country := v)
    case DealStatus => a.(dealStatus := v)
    case Priority => a.(priority := v)
    case Notes => a.(notes := Some(v))
  }

  // ---------------------------------------------------------------------
  // Search and filters
  // ---------------------------------------------------------------------

  /** `toLowerCase` on the ASCII letters; every other character is kept. */
  function LowerChar(c: char): char {
    if 'A' <= c <= 'Z' then (c as int + 32) as char else c
  }

  function Lower(s: string): (r: string)
    ensures |r| == |s|
    ensures forall i :: 0 <= i < |s| ==> r[i] == LowerChar(s[i])
  {
    seq(|s|, i requires 0 <= i < |s| => LowerChar(s[i]))
  }

  /** `text.includes(part)`: `part` occurs in `text` as a contiguous piece. */
  predicate Contains(text: string, part: string)
    decreases |text|
  {
    part <= text || (text != [] && Contains(text[1..], part))
  }

  /** `part` sits in `text` starting at index `i`. */
  predicate OccursAt(text: string, part: string, i: int) {
    0 <= i && i + |part| <= |text| && text[i..i + |part|] == part
  }

  lemma {:induction false} ContainsOccurs(text: string, part: string) returns (i: nat)
    requires Contains(text, part)
    ensures OccursAt(text, part, i)
    decreases |text|
  {
    if part <= text {
      i := 0;
      assert text[..|part|] == part;
    } else {
      var j := ContainsOccurs(text[1..], part);
      i := j + 1;
      assert text[1..][j..j + |part|] == text[i..i + |part|];
    }
  }

  lemma {:induction false} OccursContains(text: string, part: string, i: nat)
    requires OccursAt(text, part, i)
    ensures Contains(text, part)
    decreases i
  {
    if i == 0 {
      assert text[..|part|] == part;
    } else {
      assert text[1..][i - 1..i - 1 + |part|] == text[i..i + |part|];
      OccursContains(text[1..], part, i - 1);
    }
  }

  /** `Contains` means what it says: `part` occurs somewhere in `text`. */
  lemma ContainsAt(text: string, part: string)
    ensures Contains(text, part) <==> exists i :: OccursAt(text, part, i)
  {
    if Contains(text, part) {
      var i := ContainsOccurs(text, part);
    }
    if exists i :: OccursAt(text, part, i) {
      var i :| OccursAt(text, part, i);
      OccursContains(text, part, i);
    }
  }

  /** The value of a category, status, priority or approval filter that lets everything through. */
  const All: string := "ALL"

  /** The transient filter state of the page. */
  datatype FilterState = FilterState(
    search: string,
    category: string,
    status: string,
    priority: string,
    approval: string)

  const NoFilter: FilterState := FilterState("", All, All, All, All)

  /**
   * The search test: the lower-cased query occurs in the lower-cased name,
   * company or job title; the empty query matches everyone.
   */
  predicate MatchesSearch(a: Attendee, search: string)
    ensures search == [] ==> MatchesSearch(a, search)
    ensures MatchesSearch(a, search) <==>
              exists i :: || OccursAt(Lower(a.name), Lower(search), i)
                          || OccursAt(Lower(a.company), Lower(search), i)
                          || OccursAt(Lower(a.jobTitle), Lower(search), i)
  {
    var q := Lower(search);
    ContainsAt(Lower(a.name), q);
    ContainsAt(Lower(a.company), q);
    ContainsAt(Lower(a.jobTitle), q);
    Contains(Lower(a.name), q) || Contains(Lower(a.company), q) || Contains(Lower(a.jobTitle), q)
  }

  /** `choice === "ALL" || value === choice`: `ALL` lets every value through, any other choice only itself. */
  predicate Selects(choice: string, value: string)
    ensures choice == All ==> Selects(choice, value)
    ensures choice != All ==> (Selects(choice, value) <==> value == choice)
  {
    choice == All || value == choice
  }

  /** The predicate `filteredData` keeps an attendee by; the cleared filter keeps everyone. */
  predicate Matches(a: Attendee, f: FilterState)
    ensures f == NoFilter ==> Matches(a, f)
    ensures Matches(a, f) && f.category != All ==> a.category == f.category
  {
    && MatchesSearch(a, f.search)
    && Selects(f.category, a.category)
    && Selects(f.status, a.dealStatus)
    && Selects(f.priority, a.priority)
    && Selects(f.approval, a.approvalStatus)
  }

  /**
   * `filteredData`: the attendees that match, in list order, each as often
   * as it occurs in the list.
   */
  function FilterAttendees(xs: seq<Attendee>, f: FilterState): (r: seq<Attendee>)
    ensures IsSubseq(r, xs)
    ensures forall a :: a in r <==> a in xs && Matches(a, f)
    ensures forall a :: multiset(r)[a] == if Matches(a, f) then multiset(xs)[a] else 0
  {
    var p := (a: Attendee) => Matches(a, f);
    var r := Filter(p, xs);
    forall a ensures a in r <==> a in xs && Matches(a, f) {
      FilterMember(p, xs, a);
    }
    forall a ensures multiset(r)[a] == if Matches(a, f) then multiset(xs)[a] else 0 {
      FilterMultiset(p, xs, a);
    }
    r
  }

  /** With an empty search and every filter at "ALL", nothing is dropped. */
  lemma NoFilterKeepsAll(xs: seq<Attendee>)
    ensures FilterAttendees(xs, NoFilter) == xs
  {
    assert Lower("") == "";
    forall k | 0 <= k < |xs| ensures Matches(xs[k], NoFilter) {
      assert [] <= Lower(xs[k].name);
    }
    FilterKeepsAll((a: Attendee) => Matches(a, NoFilter), xs);
  }

  /** `choice` is `wider`, or `wider` lets everything through. */
  predicate NarrowsChoice(choice: string, wider: string) {
    wider == All || choice == wider
  }

  /** `g` is `f` with some "ALL" filters set to a value. */
  predicate Narrows(g: FilterState, f: FilterState) {
    && g.search == f.search
    && NarrowsChoice(g.category, f.category)
    && NarrowsChoice(g.status, f.status)
    && NarrowsChoice(g.priority, f.priority)
    && NarrowsChoice(g.approval, f.approval)
  }

  /** Setting filters that were "ALL" to values keeps a subsequence of the previous view. */
  lemma FilterNarrowing(xs: seq<Attendee>, f: FilterState, g: FilterState)
    requires Narrows(g, f)
    ensures IsSubseq(FilterAttendees(xs, g), FilterAttendees(xs, f))
    ensures |FilterAttendees(xs, g)| <= |FilterAttendees(xs, f)|
  {
    FilterNarrows((a: Attendee) => Matches(a, f), (a: Attendee) => Matches(a, g), xs);
    SubseqLength(FilterAttendees(xs, g), FilterAttendees(xs, f));
  }

  // ---------------------------------------------------------------------
  // Statistics
  // ---------------------------------------------------------------------

  /** How many of `s` have category `c`, counted front to back like `reduce`. */
  function CategoryCount(s: seq<Attendee>, c: string): (n: nat)
    ensures n <= |s|
  {
    if s == [] then 0
    else CategoryCount(s[..|s| - 1], c) + (if s[|s| - 1].category == c then 1 else 0)
  }

  /** The sum of the values of a map. */
  ghost function SumOf(m: map<string, nat>): nat
    decreases |m|
  {
    if m == map[] then 0
    else
      var k :| k in m;
      m[k] + SumOf(m - {k})
  }

  /** The sum does not depend on which key is taken out first. */
  lemma {:induction false} SumOfRemove(m: map<string, nat>, c: string)
    requires c in m
    ensures SumOf(m) == m[c] + SumOf(m - {c})
    decreases |m|
  {
    var d :| d in m && SumOf(m) == m[d] + SumOf(m - {d});
    if d != c {
      SumOfRemove(m - {d}, c);
      SumOfRemove(m - {c}, d);
      assert m - {d} - {c} == m - {c} - {d};
    }
  }

  /** Counting one more attendee at the end. */
  lemma CategoryCountSnoc(s: seq<Attendee>, a: Attendee, c: string)
    ensures CategoryCount(s + [a], c) == CategoryCount(s, c) + (if a.category == c then 1 else 0)
  {
    assert (s + [a])[..|s|] == s;
  }

  /** Adding one to a category, new or not, adds one to the sum. */
  lemma SumOfIncrement(m: map<string, nat>, c: string)
    ensures SumOf(m[c := (if c in m then m[c] else 0) + 1]) == SumOf(m) + 1
  {
    var m' := m[c := (if c in m then m[c] else 0) + 1];
    SumOfRemove(m', c);
    assert m' - {c} == m - {c};
    if c in m {
      SumOfRemove(m, c);
    } else {
      assert m - {c} == m;
    }
  }

  /** `m` holds, for each category that occurs in `s`, how many of `s` have it. */
  ghost predicate CountsOf(m: map<string, nat>, s: seq<Attendee>) {
    && (forall c :: c in m <==> CategoryCount(s, c) > 0)
    && (forall c :: c in m ==> m[c] == CategoryCount(s, c))
  }

  /** Counting one more attendee keeps the counts exact. */
  lemma CountsOfSnoc(m: map<string, nat>, s: seq<Attendee>, a: Attendee)
    requires CountsOf(m, s)
    ensures CountsOf(m[a.category := (if a.category in m then m[a.category] else 0) + 1], s + [a])
  {
    forall c
      ensures CategoryCount(s + [a], c) == CategoryCount(s, c) + (if a.category == c then 1 else 0)
    {
      CategoryCountSnoc(s, a, c);
    }
  }

  /**
   * `stats`: the number of filtered attendees and, per category that
   * occurs, how many have it; the counts add up to the total.
   */
  method ComputeStats(filtered: seq<Attendee>) returns (total: nat, byCategory: map<string, nat>)
    ensures total == |filtered|
    ensures forall c :: c in byCategory <==> CategoryCount(filtered, c) > 0
    ensures forall c :: c in byCategory ==> byCategory[c] == CategoryCount(filtered, c)
    ensures SumOf(byCategory) == total
  {
    total := |filtered|;
    byCategory := map[];
    var i := 0;
    while i < |filtered|
      invariant 0 <= i <= |filtered|
      invariant CountsOf(byCategory, filtered[..i])
      invariant SumOf(byCategory) == i
    {
      var a := filtered[i];
      SumOfIncrement(byCategory, a.category);
      CountsOfSnoc(byCategory, filtered[..i], a);
      assert filtered[..i + 1] == filtered[..i] + [a];
      byCategory := byCategory[a.category := (if a.category in byCategory then byCategory[a.category] else 0) + 1];
      i := i + 1;
    }
    assert filtered[..i] == filtered;
  }

  // ---------------------------------------------------------------------
  // Editing, loading and resetting the list
  // ---------------------------------------------------------------------

  /** Records `handleUpdateAttendee` treats as the chosen one: same name and email. */
  predicate SameContact(a: Attendee, target: Attendee) {
    a.name == target.name && a.email == target.email
  }

  /**
   * The list after `handleUpdateAttendee`: `field` reads `value` on every
   * attendee with the chosen name and email; nothing else changes.
   */
  function UpdateMatching(xs: seq<Attendee>, target: Attendee, field: AttendeeField, value: string): (r: seq<Attendee>)
    ensures |r| == |xs|
    ensures forall k, g :: 0 <= k < |xs| ==>
              GetField(r[k], g) == if SameContact(xs[k], target) && g == field then Some(value) else GetField(xs[k], g)
    ensures forall k :: 0 <= k < |xs| && !SameContact(xs[k], target) ==> r[k] == xs[k]
  {
    seq(|xs|, k requires 0 <= k < |xs| =>
      if SameContact(xs[k], target) then SetField(xs[k], field, value) else xs[k])
  }

  /** The row picked on screen is in the list, so the edit reaches at least that record. */
  lemma UpdateReachesChosenRow(xs: seq<Attendee>, f: FilterState, index: nat, field: AttendeeField, value: string)
    requires index < |FilterAttendees(xs, f)|
    ensures var target := FilterAttendees(xs, f)[index];
            exists k :: 0 <= k < |xs| && SameContact(xs[k], target) &&
                        GetField(UpdateMatching(xs, target, field, value)[k], field) == Some(value)
  {
    var target := FilterAttendees(xs, f)[index];
    assert target in FilterAttendees(xs, f);
    var k :| 0 <= k < |xs| && xs[k] == target;
    assert SameContact(xs[k], target);
  }

  /** First load without saved data: every record gets a notes string, keeping a non-empty one. */
  function WithNotesDefaulted(raw: seq<Attendee>): (r: seq<Attendee>)
    ensures |r| == |raw|
    ensures forall k :: 0 <= k < |raw| ==> r[k].notes == Some(raw[k].notes.GetOr(""))
    ensures forall k, g :: 0 <= k < |raw| && g != Notes ==> GetField(r[k], g) == GetField(raw[k], g)
  {
    seq(|raw|, k requires 0 <= k < |raw| => raw[k].(notes := Some(raw[k].notes.GetOr(""))))
  }

  /** `handleResetData`: the bundled records, every note emptied. */
  function WithNotesCleared(raw: seq<Attendee>): (r: seq<Attendee>)
    ensures |r| == |raw|
    ensures forall k :: 0 <= k < |raw| ==> r[k].notes == Some("")
    ensures forall k, g :: 0 <= k < |raw| && g != Notes ==> GetField(r[k], g) == GetField(raw[k], g)
  {
    seq(|raw|, k requires 0 <= k < |raw| => raw[k].(notes := Some("")))
  }

  // ---------------------------------------------------------------------
  // Language preference
  // ---------------------------------------------------------------------

  datatype Language = En | Zh

  /** How the preference is stored. */
  function LanguageCode(l: Language): (r: string)
    ensures r == "en" <==> l == En
  {
    if l == En then "en" else "zh"
  }

  /** The preference read at start-up: only "en" and "zh" are accepted, anything else is Chinese. */
  function LoadLanguage(saved: Option<string>): (l: Language)
    ensures l == En <==> saved == Some("en")
    ensures saved == Some(LanguageCode(l)) || l == Zh
  {
    if saved == Some("en") then En else Zh
  }

  /** A stored preference reads back as itself. */
  lemma LoadLanguageRoundTrip(l: Language)
    ensures LoadLanguage(Some(LanguageCode(l))) == l
  {
  }

  /** `toggleLang`. */
  function Toggled(l: Language): (r: Language)
    ensures r != l
  {
    if l == En then Zh else En
  }

  lemma ToggleTwice(l: Language)
    ensures Toggled(Toggled(l)) == l
  {
  }

  // ---------------------------------------------------------------------
  // CSV export
  // ---------------------------------------------------------------------

  /** The column titles of the attendee export. */
  const HeaderNames: seq<string> :=
    ["分類", "Name", "Company", "Title", "Email", "Phone", "LinkedIn", "Status", "Priority", "Approval", "Notes"]

  const ExportHeader: seq<Cell> := BareRow(HeaderNames)

  /** One exported row: every cell quoted; a missing note is empty. */
  function ExportCells(a: Attendee): (r: seq<Cell>)
    ensures |r| == 11
    ensures Values(r) == ExportValues(a)
    ensures forall k :: 0 <= k < |r| ==> r[k].Quoted?
  {
    [Quoted(a.category), Quoted(a.name), Quoted(a.company), Quoted(a.jobTitle),
     Quoted(a.email), Quoted(a.phone), Quoted(a.linkedIn), Quoted(a.dealStatus),
     Quoted(a.priority), Quoted(a.approvalStatus), Quoted(a.notes.GetOr(""))]
  }

  /**
   * The CSV text `handleExport` puts in the download: header line, "\n", the
   * rows joined by "\n"; with nothing shown, the header line and its line feed.
   */
  function ExportCsv(filtered: seq<Attendee>): (r: string)
    ensures RenderRow(ExportHeader) + "\n" <= r
    ensures filtered == [] ==> r == RenderRow(ExportHeader) + "\n"
  {
    RenderRow(ExportHeader) + "\n" + Join('\n', Lines(Map(ExportCells, filtered)))
  }

  /** The values of one exported row, in column order. */
  function ExportValues(a: Attendee): (r: seq<string>)
    ensures |r| == 11
    ensures r[1] == a.name && r[4] == a.email
    ensures r[10] == a.notes.GetOr("")
  {
    [a.category, a.name, a.company, a.jobTitle, a.email, a.phone, a.linkedIn,
     a.dealStatus, a.priority, a.approvalStatus, a.notes.GetOr("")]
  }

  lemma HeaderPlainFrom5()
    ensures AllPlain(HeaderNames[5..])
  {
    assert AllPlain(HeaderNames[10..]);
    assert AllPlain(HeaderNames[9..]);
    assert AllPlain(HeaderNames[8..]);
    assert AllPlain(HeaderNames[7..]);
    assert AllPlain(HeaderNames[6..]);
  }

  lemma HeaderPlain()
    ensures AllPlain(HeaderNames)
  {
    HeaderPlainFrom5();
    assert AllPlain(HeaderNames[4..]);
    assert AllPlain(HeaderNames[3..]);
    assert AllPlain(HeaderNames[2..]);
    assert AllPlain(HeaderNames[1..]);
  }

  /**
   * Reading the export back gives the header and then exactly one record
   * per filtered attendee, in filter order, holding its values; unlike the
   * exhibitor export this needs nothing of the data, since every cell is
   * quoted.
   */
  lemma ExportReadsBack(filtered: seq<Attendee>)
    ensures ParseDocument(ExportCsv(filtered)) == Some([HeaderNames] + Map(ExportValues, filtered))
  {
    forall k | 0 <= k < |filtered|
      ensures WellFormedRow(ExportCells(filtered[k])) && Values(ExportCells(filtered[k])) == ExportValues(filtered[k])
    {
    }
    MapWellFormed(ExportCells, filtered);
    MapTable(ExportCells, ExportValues, filtered);
    HeaderPlain();
    BareRowReadsBack(HeaderNames);
    ParseDocumentHeaderLines(ExportHeader, Map(ExportCells, filtered));
  }

  /** After a reset every exported row has an empty notes column. */
  lemma ResetClearsExportedNotes(raw: seq<Attendee>, f: FilterState, k: nat)
    requires k < |FilterAttendees(WithNotesCleared(raw), f)|
    ensures Map(ExportValues, FilterAttendees(WithNotesCleared(raw), f))[k][10] == ""
  {
    var shown := FilterAttendees(WithNotesCleared(raw), f);
    assert shown[k] in WithNotesCleared(raw);
  }

  // ---------------------------------------------------------------------
  // The page state
  // ---------------------------------------------------------------------

  class AttendeeBoard {
    var attendees: seq<Attendee>
    var lang: Language
    var filter: FilterState

    /**
     * Start-up: the saved list if it parses, else the bundled data with
     * notes filled in; the saved language if valid; no filter.
     */
    constructor (savedLang: Option<string>, saved: Saved<seq<Attendee>>, raw: seq<Attendee>)
      ensures lang == LoadLanguage(savedLang)
      ensures attendees == (if saved.Valid? then saved.value else WithNotesDefaulted(raw))
      ensures filter == NoFilter
    {
      lang := LoadLanguage(savedLang);
      attendees := if saved.Valid? then saved.value else WithNotesDefaulted(raw);
      filter := NoFilter;
    }

    /** `filteredData`. */
    function Filtered(): (r: seq<Attendee>)
      reads this
      ensures IsSubseq(r, attendees)
      ensures forall a :: a in r <==> a in attendees && Matches(a, filter)
    {
      FilterAttendees(attendees, filter)
    }

    method SetFilter(f: FilterState)
      modifies this
      ensures filter == f
      ensures attendees == old(attendees) && lang == old(lang)
    {
      filter := f;
    }

    /** `handleUpdateAttendee(index, field, value)` on row `index` of the filtered view. */
    method UpdateAttendee(index: nat, field: AttendeeField, value: string)
      requires index < |Filtered()|
      modifies this
      ensures attendees == UpdateMatching(old(attendees), old(Filtered())[index], field, value)
      ensures filter == old(filter) && lang == old(lang)
    {
      var target := Filtered()[index];
      attendees := UpdateMatching(attendees, target, field, value);
    }

    /** `handleResetData`, once the user has confirmed. */
    method ResetData(raw: seq<Attendee>)
      modifies this
      ensures attendees == WithNotesCleared(raw)
      ensures filter == old(filter) && lang == old(lang)
    {
      attendees := WithNotesCleared(raw);
    }

    method ToggleLang()
      modifies this
      ensures lang == Toggled(old(lang))
      ensures attendees == old(attendees) && filter == old(filter)
    {
      lang := Toggled(lang);
    }

    /** `handleExport`'s CSV text. */
    function Export(): (r: string)
      reads this
      ensures RenderRow(ExportHeader) + "\n" <= r
    {
      ExportCsv(Filtered())
    }
  }
}
