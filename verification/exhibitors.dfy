/**
 * The exhibitor store behind the tracker: the annotation map (exhibitor id
 * to `UserState`), the list of user-created "X-Factor" exhibitors, the five
 * actions that change them, the merged view shown to the user and its CSV
 * export.
 *
 * Each action in the source hands `setState` a function from the previous
 * collection to the next one; those functions are `ToggledStar`,
 * `WithStatus`, `WithNotes`, `WithXFactor`, `WithoutCreated` below, and the
 * class `ExhibitorStore` applies them to its fields.
 */
module Exhibitors {

  import opened Wrappers
  import opened Types
  import opened Lists
  import opened Csv

  type States = map<string, UserState>

  /** The id prefix reserved for user-created exhibitors. */
  const XFactorPrefix: string := "xf-"

  /** `iid.startsWith('xf-')`. */
  predicate IsCreatedId(iid: string)
    ensures IsCreatedId(iid) <==> |iid| >= 3 && iid[0] == 'x' && iid[1] == 'f' && iid[2] == '-'
  {
    XFactorPrefix <= iid
  }

  /** The annotation of `iid`: its entry, or the zero value when there is none. */
  function StateOf(states: States, iid: string): (u: UserState)
    ensures iid in states ==> u == states[iid]
    ensures iid !in states ==> !u.isStarred && u.status == NoStatus && u.notes == ""
  {
    if iid in states then states[iid] else DefaultUserState
  }

  /** The update `toggleStar(iid)` applies to the annotation map. */
  function ToggledStar(states: States, iid: string): (r: States)
    ensures r.Keys == states.Keys + {iid}
    ensures r[iid].isStarred == !StateOf(states, iid).isStarred
    ensures r[iid].status == StateOf(states, iid).status
    ensures r[iid].notes == StateOf(states, iid).notes
    ensures forall k :: k in states && k != iid ==> r[k] == states[k]
  {
    var current := StateOf(states, iid);
    states[iid := current.(isStarred := !current.isStarred)]
  }

  /** The update `updateStatus(iid, status)` applies to the annotation map. */
  function WithStatus(states: States, iid: string, status: VisitStatus): (r: States)
    ensures r.Keys == states.Keys + {iid}
    ensures r[iid].status == status
    ensures r[iid].isStarred == StateOf(states, iid).isStarred
    ensures r[iid].notes == StateOf(states, iid).notes
    ensures forall k :: k in states && k != iid ==> r[k] == states[k]
  {
    states[iid := StateOf(states, iid).(status := status)]
  }

  /** The update `updateNotes(iid, notes)` applies to the annotation map. */
  function WithNotes(states: States, iid: string, notes: string): (r: States)
    ensures r.Keys == states.Keys + {iid}
    ensures r[iid].notes == notes
    ensures r[iid].isStarred == StateOf(states, iid).isStarred
    ensures r[iid].status == StateOf(states, iid).status
    ensures forall k :: k in states && k != iid ==> r[k] == states[k]
  {
    states[iid := StateOf(states, iid).(notes := notes)]
  }

  /** Toggling a star twice reads back, for every id, as before. */
  lemma ToggleStarTwice(states: States, iid: string, k: string)
    ensures StateOf(ToggledStar(ToggledStar(states, iid), iid), k) == StateOf(states, k)
  {
    var once := ToggledStar(states, iid);
    var twice := ToggledStar(once, iid);
    if k == iid {
      assert twice[iid].isStarred == !once[iid].isStarred;
    }
  }

  /** Setting status and then notes of one id do not interfere. */
  lemma StatusThenNotes(states: States, iid: string, status: VisitStatus, notes: string)
    ensures var u := StateOf(WithNotes(WithStatus(states, iid, status), iid, notes), iid);
            u.status == status && u.notes == notes && u.isStarred == StateOf(states, iid).isStarred
  {
  }

  /** The fields a user enters for a new exhibitor: everything but the id and flag. */
  datatype ExhibitorInput = ExhibitorInput(
    name: string,
    logo: Option<string>,
    website: Option<string>,
    booths: Option<string>,
    category: Option<string>,
    about: Option<string>,
    event: Option<string>,
    contact: Option<string>,
    companyInfo: Option<string>,
    country: Option<string>)

  /**
   * The exhibitor `addXFactor(data)` creates; `suffix` stands for the
   * random id `nanoid()` returns.
   */
  function NewXFactor(data: ExhibitorInput, suffix: string): (e: Exhibitor)
    ensures IsCreatedId(e.iid) && e.iid[|XFactorPrefix|..] == suffix
    ensures e.isXFactor == Some(true)
    ensures e.name == data.name && e.logo == data.logo && e.website == data.website
    ensures e.booths == data.booths && e.category == data.category && e.about == data.about
    ensures e.event == data.event && e.contact == data.contact
    ensures e.companyInfo == data.companyInfo && e.country == data.country
  {
    Exhibitor(XFactorPrefix + suffix, data.name, data.logo, data.website, data.booths,
              data.category, data.about, data.event, data.contact, data.companyInfo,
              data.country, Some(true))
  }

  /** The update `addXFactor` applies to the created list: the new one first. */
  function WithXFactor(xFactors: seq<Exhibitor>, data: ExhibitorInput, suffix: string): (r: seq<Exhibitor>)
    ensures |r| == |xFactors| + 1
    ensures r[1..] == xFactors
    ensures r[0] == NewXFactor(data, suffix)
    ensures IsCreatedId(r[0].iid) && r[0].isXFactor == Some(true)
  {
    [NewXFactor(data, suffix)] + xFactors
  }

  /** The update `removeExhibitor(iid)` applies to the created list. */
  function WithoutCreated(xFactors: seq<Exhibitor>, iid: string): (r: seq<Exhibitor>)
    ensures IsSubseq(r, xFactors)
    ensures forall k :: 0 <= k < |r| ==> r[k].iid != iid
    ensures forall x :: x in xFactors && x.iid != iid ==> x in r
    ensures forall x :: multiset(r)[x] == if x.iid != iid then multiset(xFactors)[x] else 0
  {
    var r := Filter((x: Exhibitor) => x.iid != iid, xFactors);
    forall x | x in xFactors && x.iid != iid ensures x in r {
      FilterMember((x: Exhibitor) => x.iid != iid, xFactors, x);
    }
    forall x ensures multiset(r)[x] == if x.iid != iid then multiset(xFactors)[x] else 0 {
      FilterMultiset((x: Exhibitor) => x.iid != iid, xFactors, x);
    }
    assert forall k :: 0 <= k < |r| ==> r[k] in r;
    r
  }

  /**
   * A dataset entry as the merge sees it: flagged as not user-created, with
   * its id and every other field kept.
   */
  function AsStatic(e: Exhibitor): (r: Exhibitor)
    ensures r.isXFactor == Some(false) && r.iid == e.iid
    ensures r.(isXFactor := e.isXFactor) == e
  {
    e.(isXFactor := Some(false))
  }

  /**
   * The merged view: the dataset in its order, then the created exhibitors
   * in theirs, each with its annotation or the zero value.
   */
  function Merge(staticData: seq<Exhibitor>, xFactors: seq<Exhibitor>, states: States): (r: seq<ExhibitorWithState>)
    ensures |r| == |staticData| + |xFactors|
    ensures forall k :: 0 <= k < |staticData| ==>
              r[k].exhibitor == AsStatic(staticData[k]) && r[k].exhibitor.isXFactor == Some(false)
    ensures forall j :: |staticData| <= j < |r| ==> r[j].exhibitor == xFactors[j - |staticData|]
    ensures forall k :: 0 <= k < |r| ==> r[k].userState == StateOf(states, r[k].exhibitor.iid)
  {
    var combined := seq(|staticData|, k requires 0 <= k < |staticData| => AsStatic(staticData[k])) + xFactors;
    seq(|combined|, k requires 0 <= k < |combined| => ExhibitorWithState(combined[k], StateOf(states, combined[k].iid)))
  }

  /** Only entries for `iid` change in the merged view after an annotation update. */
  lemma MergeAfterToggle(staticData: seq<Exhibitor>, xFactors: seq<Exhibitor>, states: States, iid: string)
    ensures var before := Merge(staticData, xFactors, states);
            var after := Merge(staticData, xFactors, ToggledStar(states, iid));
            |after| == |before| &&
            forall k :: 0 <= k < |before| ==>
              after[k].exhibitor == before[k].exhibitor &&
              (before[k].exhibitor.iid != iid ==> after[k] == before[k]) &&
              (before[k].exhibitor.iid == iid ==>
                 after[k].userState.isStarred == !before[k].userState.isStarred &&
                 after[k].userState.status == before[k].userState.status &&
                 after[k].userState.notes == before[k].userState.notes)
  {
  }

  /** A new exhibitor shows up right after the dataset, with its own annotation. */
  lemma MergeAfterAdd(staticData: seq<Exhibitor>, xFactors: seq<Exhibitor>, states: States,
                      data: ExhibitorInput, suffix: string)
    requires XFactorPrefix + suffix !in states
    ensures var after := Merge(staticData, WithXFactor(xFactors, data, suffix), states);
            |after| == |staticData| + |xFactors| + 1 &&
            after[|staticData|] == ExhibitorWithState(NewXFactor(data, suffix), DefaultUserState) &&
            after[..|staticData|] == Merge(staticData, xFactors, states)[..|staticData|] &&
            after[|staticData| + 1..] == Merge(staticData, xFactors, states)[|staticData|..]
  {
    var n := |staticData|;
    var before := Merge(staticData, xFactors, states);
    var xs := WithXFactor(xFactors, data, suffix);
    var after := Merge(staticData, xs, states);
    assert after[n].exhibitor == xs[0];
    assert after[..n] == before[..n] by {
      forall k | 0 <= k < n
        ensures after[k] == before[k]
      {
      }
    }
    assert after[n + 1..] == before[n..] by {
      forall j | n + 1 <= j < |after|
        ensures after[j] == before[j - 1]
      {
        assert after[j].exhibitor == xs[j - n] == xFactors[j - 1 - n];
      }
    }
  }

  /** After removing a created id no merged entry carries it, and the dataset is intact. */
  lemma MergeAfterRemove(staticData: seq<Exhibitor>, xFactors: seq<Exhibitor>, states: States, iid: string)
    requires IsCreatedId(iid)
    requires forall k :: 0 <= k < |staticData| ==> !IsCreatedId(staticData[k].iid)
    ensures var after := Merge(staticData, WithoutCreated(xFactors, iid), states - {iid});
            (forall k :: 0 <= k < |after| ==> after[k].exhibitor.iid != iid) &&
            after[..|staticData|] == Merge(staticData, xFactors, states)[..|staticData|]
  {
    var after := Merge(staticData, WithoutCreated(xFactors, iid), states - {iid});
    forall k | 0 <= k < |staticData|
      ensures after[k].exhibitor.iid != iid
    {
      assert after[k].exhibitor.iid == staticData[k].iid;
    }
  }

  // ---------------------------------------------------------------------
  // CSV export
  // ---------------------------------------------------------------------

  /** The column titles of the exhibitor export. */
  const HeaderNames: seq<string> :=
    ["ID", "Name", "Booth", "Category", "Country", "Starred", "Status", "Notes", "Website"]

  const ExportHeader: seq<Cell> := BareRow(HeaderNames)

  /**
   * One exported row: id, status and website go out as they are, the four
   * descriptive texts and the notes are quoted, the star is `Yes`/`No`.
   */
  function ExportCells(e: ExhibitorWithState): (r: seq<Cell>)
    ensures |r| == |HeaderNames|
    ensures Values(r) == ExportValues(e)
    ensures forall k :: 0 <= k < |r| ==> (r[k].Quoted? <==> k in {1, 2, 3, 4, 7})
  {
    [Bare(e.exhibitor.iid),
     Quoted(e.exhibitor.name),
     Quoted(e.exhibitor.booths.GetOr("")),
     Quoted(e.exhibitor.category.GetOr("")),
     Quoted(e.exhibitor.country.GetOr("")),
     Bare(if e.userState.isStarred then "Yes" else "No"),
     Bare(StatusText(e.userState.status)),
     Quoted(e.userState.notes),
     Bare(e.exhibitor.website.GetOr(""))]
  }

  /**
   * `exportData`: the header line, then one line per merged exhibitor; with
   * nothing merged the header line alone, without a trailing line feed.
   */
  function ExportData(merged: seq<ExhibitorWithState>): (r: string)
    ensures merged == [] ==> r == RenderRow(ExportHeader)
    ensures merged != [] ==> r == RenderRow(ExportHeader) + "\n" + Join('\n', Lines(Map(ExportCells, merged)))
  {
    JoinHeader(ExportHeader, Map(ExportCells, merged));
    Join('\n', Lines([ExportHeader] + Map(ExportCells, merged)))
  }

  /** The values one exported row carries, in column order. */
  function ExportValues(e: ExhibitorWithState): (r: seq<string>)
    ensures |r| == 9
    ensures r[1] == e.exhibitor.name && r[7] == e.userState.notes
    ensures r[5] == "Yes" <==> e.userState.isStarred
  {
    [e.exhibitor.iid, e.exhibitor.name, e.exhibitor.booths.GetOr(""),
     e.exhibitor.category.GetOr(""), e.exhibitor.country.GetOr(""),
     if e.userState.isStarred then "Yes" else "No",
     StatusText(e.userState.status), e.userState.notes, e.exhibitor.website.GetOr("")]
  }

  /** Ids and websites written without quotes read back only when plain. */
  predicate Exportable(e: ExhibitorWithState) {
    Plain(e.exhibitor.iid) && Plain(e.exhibitor.website.GetOr(""))
  }

  lemma StatusTextPlain(s: VisitStatus)
    ensures Plain(StatusText(s))
  {
  }

  lemma HeaderPlainFrom4()
    ensures AllPlain(HeaderNames[4..])
  {
    assert AllPlain(HeaderNames[8..]);
    assert AllPlain(HeaderNames[7..]);
    assert AllPlain(HeaderNames[6..]);
    assert AllPlain(HeaderNames[5..]);
  }

  lemma HeaderPlain()
    ensures AllPlain(HeaderNames)
  {
    HeaderPlainFrom4();
    assert AllPlain(HeaderNames[3..]);
    assert AllPlain(HeaderNames[2..]);
    assert AllPlain(HeaderNames[1..]);
  }

  lemma ExportCellsWellFormed(e: ExhibitorWithState)
    requires Exportable(e)
    ensures WellFormedRow(ExportCells(e))
  {
    StatusTextPlain(e.userState.status);
    assert Plain("Yes") && Plain("No");
  }

  /**
   * Reading the export back gives the header and then exactly one record per
   * merged exhibitor, in merge order, holding that exhibitor's values.
   */
  lemma ExportDataReadsBack(merged: seq<ExhibitorWithState>)
    requires forall k :: 0 <= k < |merged| ==> Exportable(merged[k])
    ensures ParseDocument(ExportData(merged)) == Some([HeaderNames] + Map(ExportValues, merged))
  {
    var rows := Map(ExportCells, merged);
    forall k | 0 <= k < |merged|
      ensures WellFormedRow(ExportCells(merged[k])) && Values(ExportCells(merged[k])) == ExportValues(merged[k])
    {
      ExportCellsWellFormed(merged[k]);
    }
    MapWellFormed(ExportCells, merged);
    MapTable(ExportCells, ExportValues, merged);
    HeaderPlain();
    BareRowReadsBack(HeaderNames);
    ParseDocumentWithHeader(ExportHeader, rows);
  }

  // ---------------------------------------------------------------------
  // The store
  // ---------------------------------------------------------------------

  class ExhibitorStore {
    var userStates: States
    var xFactors: seq<Exhibitor>

    /**
     * Start-up: both documents are read in one `try`, so an unreadable
     * annotation document also leaves the created list empty.
     */
    constructor (savedStates: Saved<States>, savedXFactors: Saved<seq<Exhibitor>>)
      ensures userStates == (if savedStates.Valid? then savedStates.value else map[])
      ensures xFactors == (if !savedStates.Corrupt? && savedXFactors.Valid? then savedXFactors.value else [])
    {
      userStates := if savedStates.Valid? then savedStates.value else map[];
      xFactors := if !savedStates.Corrupt? && savedXFactors.Valid? then savedXFactors.value else [];
    }

    method ToggleStar(iid: string)
      modifies this
      ensures userStates == ToggledStar(old(userStates), iid)
      ensures xFactors == old(xFactors)
    {
      userStates := ToggledStar(userStates, iid);
    }

    method UpdateStatus(iid: string, status: VisitStatus)
      modifies this
      ensures userStates == WithStatus(old(userStates), iid, status)
      ensures xFactors == old(xFactors)
    {
      userStates := WithStatus(userStates, iid, status);
    }

    method UpdateNotes(iid: string, notes: string)
      modifies this
      ensures userStates == WithNotes(old(userStates), iid, notes)
      ensures xFactors == old(xFactors)
    {
      userStates := WithNotes(userStates, iid, notes);
    }

    method AddXFactor(data: ExhibitorInput, suffix: string)
      modifies this
      ensures xFactors == WithXFactor(old(xFactors), data, suffix)
      ensures userStates == old(userStates)
    {
      xFactors := WithXFactor(xFactors, data, suffix);
    }

    /**
     * Removes a created exhibitor and its annotation; refuses (returns
     * false, changes nothing) for an id without the created-exhibitor prefix.
     */
    method RemoveExhibitor(iid: string) returns (removed: bool)
      modifies this
      ensures removed == IsCreatedId(iid)
      ensures removed ==> xFactors == WithoutCreated(old(xFactors), iid)
      ensures removed ==> userStates == old(userStates) - {iid}
      ensures !removed ==> xFactors == old(xFactors) && userStates == old(userStates)
    {
      if IsCreatedId(iid) {
        xFactors := WithoutCreated(xFactors, iid);
        userStates := userStates - {iid};
        removed := true;
      } else {
        removed := false;
      }
    }

    /** `allExhibitors` over the bundled dataset. */
    function Exhibitors(staticData: seq<Exhibitor>): (r: seq<ExhibitorWithState>)
      reads this
      ensures |r| == |staticData| + |xFactors|
      ensures forall k :: 0 <= k < |staticData| ==> r[k].exhibitor == AsStatic(staticData[k])
      ensures forall j :: |staticData| <= j < |r| ==> r[j].exhibitor == xFactors[j - |staticData|]
    {
      Merge(staticData, xFactors, userStates)
    }

    /** `exportData`'s CSV text. */
    function Export(staticData: seq<Exhibitor>): (r: string)
      reads this
      ensures RenderRow(ExportHeader) <= r
      ensures staticData == [] && xFactors == [] ==> r == RenderRow(ExportHeader)
    {
      ExportData(Exhibitors(staticData))
    }
  }
}
