/**
 * The agents table: sortable columns with a direction icon, a page-size
 * selector that returns to page 1, Previous/Next buttons, and avatar
 * initials derived from each agent's name.
 */
module AgentsPage {
  import opened Wrappers
  import opened Text
  import opened Sequences
  import opened Ordering
  import opened TableControls

  datatype AgentStatus = Active | OnLeave | Busy

  function AgentStatusName(s: AgentStatus): string {
    match s
    case Active => "Active"
    case OnLeave => "On Leave"
    case Busy => "Busy"
  }

  /** One agent; `rating` is kept in tenths (4.8 is 48) so that it orders as the number does. */
  datatype Agent = Agent(
    id: string, name: string, email: string, phone: string, specialization: string,
    listings: int, ratingTenths: int, status: AgentStatus, image: string)

  datatype Column = ById | ByName | ByEmail | ByPhone | BySpecialization | ByListings | ByRating
                  | ByStatus | ByImage

  /** `agent[column]` */
  function ColumnValue(a: Agent, c: Column): Key {
    match c
    case ById => Str(a.id)
    case ByName => Str(a.name)
    case ByEmail => Str(a.email)
    case ByPhone => Str(a.phone)
    case BySpecialization => Str(a.specialization)
    case ByListings => Num(a.listings)
    case ByRating => Num(a.ratingTenths)
    case ByStatus => Str(AgentStatusName(a.status))
    case ByImage => Str(a.image)
  }

  datatype PageState = PageState(sorting: Sorting<Column>, currentPage: int, itemsPerPage: nat)

  const InitialState := PageState(Sorting(None, Asc), 1, 5)

  /** The columns a header click sorts by. */
  function Columns(): (Agent, Column) -> Key {
    (a: Agent, c: Column) => ColumnValue(a, c)
  }

  /** `paginatedAgents`, the page of `sortedAgents` on show. */
  function VisibleAgents(agents: seq<Agent>, s: PageState): seq<Agent> {
    PageItems(SortRows(agents, s.sorting, Columns()), s.currentPage, s.itemsPerPage)
  }

  function ClickColumn(s: PageState, c: Column): PageState {
    s.(sorting := SortData(s.sorting, c))
  }

  /** The entries selector: new page size, back to page 1, sorting kept. */
  function ChangePageSize(s: PageState, value: nat): (r: PageState)
    ensures r.itemsPerPage == value && r.currentPage == 1 && r.sorting == s.sorting
  {
    s.(itemsPerPage := value, currentPage := 1)
  }

  /** After a page-size change the table shows the first `value` sorted agents. */
  lemma PageSizeShowsFirstRows(agents: seq<Agent>, s: PageState, value: nat)
    ensures VisibleAgents(agents, ChangePageSize(s, value))
         == SortRows(agents, s.sorting, Columns())[..Min(value, |agents|)]
  {
    var sorted := SortRows(agents, s.sorting, Columns());
    assert |sorted| == |agents| by {
      assert |multiset(sorted)| == |multiset(agents)|;
    }
    PageItemsWindow(sorted, 1, value);
  }

  function ClickPrevious(s: PageState): PageState {
    s.(currentPage := Previous(s.currentPage))
  }

  function ClickNext(agents: seq<Agent>, s: PageState): PageState
    requires s.itemsPerPage >= 1
  {
    s.(currentPage := Next(s.currentPage, TotalPages(|agents|, s.itemsPerPage)))
  }

  /** Previous and Next keep a page that lies in `[1, totalPages]` inside that range. */
  lemma PreviousNextStayInRange(agents: seq<Agent>, s: PageState)
    requires s.itemsPerPage >= 1 && 1 <= s.currentPage <= TotalPages(|agents|, s.itemsPerPage)
    ensures 1 <= ClickPrevious(s).currentPage <= TotalPages(|agents|, s.itemsPerPage)
    ensures 1 <= ClickNext(agents, s).currentPage <= TotalPages(|agents|, s.itemsPerPage)
  {
  }

  datatype Icon = ChevronUp | ChevronDown | ArrowUpDown

  /** The icon in a column header of `SortButton`. */
  function SortIcon(s: Sorting<Column>, c: Column): (r: Icon)
    ensures r == ChevronUp <==> s.column == Some(c) && s.direction == Asc
    ensures r == ChevronDown <==> s.column == Some(c) && s.direction == Desc
    ensures r == ArrowUpDown <==> s.column != Some(c)
  {
    if s.column != Some(c) then ArrowUpDown
    else match s.direction
      case Asc => ChevronUp
      case Desc => ChevronDown
  }

  /** After a click only the clicked header shows a chevron, and it is down exactly when it was up before. */
  lemma IconAfterClick(s: Sorting<Column>, c: Column, d: Column)
    ensures SortIcon(SortData(s, c), c) != ArrowUpDown
    ensures SortIcon(SortData(s, c), c) == ChevronDown <==> SortIcon(s, c) == ChevronUp
    ensures d != c ==> SortIcon(SortData(s, c), d) == ArrowUpDown
  {
  }

  /** The first character of every non-empty word, in order; `n[0]` of an empty word renders as nothing. */
  function FirstLetters(words: seq<string>): (r: string)
    ensures |r| <= |words|
    ensures forall k :: 0 <= k < |r| ==> exists i :: 0 <= i < |words| && r[k] in words[i]
  {
    if |words| == 0 then ""
    else
      var rest := FirstLetters(words[1..]);
      var head := if |words[0]| > 0 then [words[0][0]] else "";
      assert forall k :: 0 <= k < |rest| ==> exists i :: 0 <= i < |words| && rest[k] in words[i] by {
        forall k | 0 <= k < |rest| ensures exists i :: 0 <= i < |words| && rest[k] in words[i] {
          var i :| 0 <= i < |words[1..]| && rest[k] in words[1..][i];
          assert words[1..][i] == words[i + 1];
        }
      }
      head + rest
  }

  /** `name.split(' ').map(n => n[0]).join('')`: one letter per word, never a space. */
  function Initials(name: string): (r: string)
    ensures |r| <= Count(name, ' ') + 1
    ensures ' ' !in r
  {
    var words := Split(name, ' ');
    var r := FirstLetters(words);
    assert forall k :: 0 <= k < |r| ==> r[k] != ' ' by {
      forall k | 0 <= k < |r| ensures r[k] != ' ' {
        var i :| 0 <= i < |words| && r[k] in words[i];
      }
    }
    r
  }

  lemma {:induction false} FirstLettersOfWords(words: seq<string>)
    requires forall i :: 0 <= i < |words| ==> |words[i]| > 0
    ensures FirstLetters(words) == seq(|words|, i requires 0 <= i < |words| => words[i][0])
  {
    if |words| > 0 {
      FirstLettersOfWords(words[1..]);
    }
  }

  /** For a name made of words separated by single spaces, the initials are the words' first letters. */
  lemma InitialsOfWords(words: seq<string>)
    requires |words| >= 1
    requires forall i :: 0 <= i < |words| ==> |words[i]| > 0 && ' ' !in words[i]
    ensures Initials(Join(words, " ")) == seq(|words|, i requires 0 <= i < |words| => words[i][0])
  {
    SplitJoin(words, ' ');
    FirstLettersOfWords(words);
  }

  /** The test that keeps the words that have a first letter. */
  function NonEmpty(): string -> bool {
    w => w != ""
  }

  /** Exactly the first letters of the non-empty words, in their order. */
  lemma {:induction false} FirstLettersOfNonEmptyWords(words: seq<string>)
    ensures var kept := Filter(words, NonEmpty());
      && |FirstLetters(words)| == |kept|
      && forall i :: 0 <= i < |kept| ==> |kept[i]| > 0 && FirstLetters(words)[i] == kept[i][0]
  {
    if |words| > 0 {
      FirstLettersOfNonEmptyWords(words[1..]);
    }
  }

  /** The initials of any name are exactly the first letters of its non-empty space-separated parts. */
  lemma InitialsExactly(name: string)
    ensures var kept := Filter(Split(name, ' '), NonEmpty());
      && |Initials(name)| == |kept|
      && forall i :: 0 <= i < |kept| ==> |kept[i]| > 0 && Initials(name)[i] == kept[i][0]
  {
    FirstLettersOfNonEmptyWords(Split(name, ' '));
  }
}
