/**
 * The record types of the exhibitor tracker: an exhibitor as it appears in
 * the bundled dataset, the closed set of visit statuses, the per-exhibitor
 * user annotation and the merged view of both.
 */
module Types {

  import opened Wrappers

  /** The closed visit-status enum; `NoStatus` is the status written "None". */
  datatype VisitStatus = NoStatus | ToVisit | Visited | Contacted | FollowUp

  /** The string literal each status is in the source and in persisted data. */
  function StatusText(s: VisitStatus): (r: string)
    ensures r != []
    ensures r == "None" <==> s == NoStatus
  {
    match s
    case NoStatus => "None"
    case ToVisit => "To Visit"
    case Visited => "Visited"
    case Contacted => "Contacted"
    case FollowUp => "Follow Up"
  }

  /** Different statuses are written differently. */
  lemma StatusTextInjective(a: VisitStatus, b: VisitStatus)
    ensures StatusText(a) == StatusText(b) ==> a == b
  {
  }

  /** The statuses in the order the status picker lists them. */
  const StatusOptions: seq<VisitStatus> := [NoStatus, ToVisit, Visited, Contacted, FollowUp]

  /** Where a status sits in `StatusOptions`; every status has a place. */
  function StatusIndex(s: VisitStatus): (i: nat)
    ensures i < |StatusOptions| && StatusOptions[i] == s
  {
    match s
    case NoStatus => 0
    case ToVisit => 1
    case Visited => 2
    case Contacted => 3
    case FollowUp => 4
  }

  /** No status is listed twice. */
  lemma StatusOptionsDistinct()
    ensures forall i, j :: 0 <= i < j < |StatusOptions| ==> StatusOptions[i] != StatusOptions[j]
  {
  }

  /** Together: every status occurs in `StatusOptions` exactly once. */
  lemma StatusOptionsExactlyOnce(s: VisitStatus)
    ensures multiset(StatusOptions)[s] == 1
  {
    assert multiset(StatusOptions) == multiset{NoStatus, ToVisit, Visited, Contacted, FollowUp};
  }

  /** The badge classes of each status; the table is total over the enum. */
  function StatusColor(s: VisitStatus): (r: string)
    ensures r != []
  {
    match s
    case NoStatus => "bg-slate-500/20 text-slate-400 border-slate-500/50"
    case ToVisit => "bg-blue-500/20 text-blue-400 border-blue-500/50"
    case Visited => "bg-emerald-500/20 text-emerald-400 border-emerald-500/50"
    case Contacted => "bg-amber-500/20 text-amber-400 border-amber-500/50"
    case FollowUp => "bg-rose-500/20 text-rose-400 border-rose-500/50"
  }

  /** The annotation a user attaches to one exhibitor. */
  datatype UserState = UserState(isStarred: bool, status: VisitStatus, notes: string)

  /** What a missing annotation reads as. */
  const DefaultUserState: UserState := UserState(false, NoStatus, "")

  /**
   * An exhibitor record. `iid` is required; `name` (the dataset's
   * `名称`) is a plain string; every other descriptive field may be null;
   * `isXFactor` may be absent.
   */
  datatype Exhibitor = Exhibitor(
    iid: string,
    name: string,
    logo: Option<string>,
    website: Option<string>,
    booths: Option<string>,
    category: Option<string>,
    about: Option<string>,
    event: Option<string>,
    contact: Option<string>,
    companyInfo: Option<string>,
    country: Option<string>,
    isXFactor: Option<bool>)

  /** An exhibitor together with exactly one annotation. */
  datatype ExhibitorWithState = ExhibitorWithState(exhibitor: Exhibitor, userState: UserState)
}
